/** Machine-level types shared by the whole model: bytes, raw pointers, the
    fixed-width integers the facade passes to the VM, C strings, and the
    three ways an operation of the facade can end (a value, a recoverable
    error, or a panic). */
module Common {

  /** An unsigned 8-bit value. */
  type byte = b: int | 0 <= b < 0x100

  /** A raw pointer handed out by the VM; `Null` is the null pointer. */
  type Ptr = nat

  const Null: Ptr := 0

  /** A pointer known not to be null (Rust's `NonNull<T>`). */
  type NonNull = p: Ptr | p != Null witness 1

  /** A signed 32-bit integer (Rust's `i32`). */
  type i32 = x: int | -0x8000_0000 <= x < 0x8000_0000

  /** The contents of a C string without its terminator: no byte of it is
      zero (the invariant of Rust's `CString`). */
  type CString = s: seq<byte> | 0 !in s

  datatype Option<+T> = None | Some(value: T)

  /** The recoverable errors the facade reports through `anyhow::Result`. */
  datatype Error =
    | Nul(position: nat)        // `CString::new` met a zero byte at `position`
    | InvalidUtf8(validUpTo: nat) // `String::from_utf8` failed after `validUpTo` good bytes
    | NotUnicode                // `OsStr::to_str` failed on a non-Linux target
    | InitVersionNull           // `mono_jit_init_version` returned null
    | AssemblyOpenNull          // `mono_domain_assembly_open` returned null

  /** The reasons the facade panics. */
  datatype Fatal =
    | DomainCreatedTwice   // "Cannot create a domain twice"
    | DomainDroppedTwice   // "Cannot drop a domain twice"
    | JitInitNull          // `expect` on a null `mono_jit_init` result
    | NoLiveDomain         // `unwrap` of `Domain::get()` returning `None`
    | NullImage            // `unwrap` of a null `mono_assembly_get_image` result
    | NullSignature        // `unwrap` of a null `mono_method_signature` result
    | NameNotUtf8          // `unwrap` of `CStr::to_str` on a method name

  /** An operation that can fail but never panics. */
  datatype Result<+T> = Ok(value: T) | Err(error: Error)

  /** An operation that can also panic. */
  datatype Outcome<+T> = Value(value: T) | Failure(error: Error) | Panic(fatal: Fatal)

  /** Rust's `n as i32` for a length `n`: keep the low 32 bits and read them
      as a two's-complement number. */
  function AsI32(n: nat): (r: i32)
    ensures n < 0x8000_0000 ==> r == n
    ensures (n - r) % 0x1_0000_0000 == 0
  {
    var low := n % 0x1_0000_0000;
    if low < 0x8000_0000 then low else low - 0x1_0000_0000
  }
}
