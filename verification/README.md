# mono-rs facade: a Dafny model of its own logic

mono-rs is a Rust facade over the Mono embedding C API. Almost all of it passes
calls through to the VM. This project models the part of the logic the facade
owns itself:

- **The domain lifecycle.** Two process-wide flags, `DOMAIN_CREATED` and
  `DOMAIN_DROPPED`, control `Domain::new`, `Domain::new_with_version`,
  `Domain::get` and the domain's `Drop`. A process goes Unborn → Live → Dead.
  Creating a second domain panics, and so does dropping one twice.
- **Host string and path conversion.** `CString::new` accepts bytes only when
  they contain no zero byte. `osstr_to_cstring` also requires well-formed UTF-8,
  as defined by the grammar in section 4 of RFC 3629.
- **argv for running an assembly.** argv[0] is the stored assembly path and the
  caller's arguments follow it. argc is the length of argv cast to `i32`.
- **Lookups and enumeration.** A name with a zero byte, or a null answer from
  the VM, makes a lookup absent. `get_methods` collects the answers of a cursor
  until the first null, and the cursor it passes does not start null. Method equality is name equality together with
  signature equality.

The VM itself is not modelled. Each C entry point the facade calls is a field of
`Sys.Vm`, which gives the VM's answer for the arguments. A pointer answer may be
null. Calls that change the VM are initialisation, cleanup, assembly loading,
allocation, internal-call registration and running an entry point. The facade
appends each of them to the log `Domains.Process.trace`. The log is how the
model states facts such as "the VM is cleaned up exactly once" or "nothing runs
when an argument is bad".

The two flags are fields of the class `Domains.Process`, and its methods update
them step by step, as the source does. The pure state machine `Lifecycle.Step`
is their specification: each method's contract ties its new flags and the kind
of its result (value, error or panic) to one `Step`. Lemmas then prove
properties of whole runs of `Step`. A Rust panic is the `Panic` case of
`Common.Outcome`, and an error returned through `?` is the `Failure` or `Err`
case. A Rust `&str`/`String` is `Utf8.Str`, the well-formed UTF-8 byte
sequences. A `CString` is `Common.CString`, the byte sequences with no zero
byte.

The model follows the code wherever the facade's documented intent says
otherwise:
- The documented state machine says a failed initialisation leaves the process
  Unborn. `Domain::new` sets the created flag before converting the name, so a
  name with a zero byte returns an error and still makes every later creation
  panic (`Lifecycle.FailedCreatePoisons`).
- The documentation is not consistent about a second initialisation: its
  operation list says it fails with an error, while its state machine and
  error policy call it fatal. The code panics.
- The documentation says `image()` always succeeds. `get_image` panics if the
  VM answers null.
- `new_with_version` tests only the created flag. Under the invariant
  `dropped ==> created` this agrees with the test in `new`
  (`Lifecycle.VersionedGuardAgrees`).

## Model

| member | source | states |
|---|---|---|
| `Common.AsI32` | mono_rt/src/assembly.rs:21 | `v.len() as i32` keeps the length modulo 2^32 and leaves every length below 2^31 unchanged |
| `Utf8.ValidUpToIsValid` | mono_rt/src/lib.rs:19 | the prefix reported by the UTF-8 error is well-formed UTF-8 |
| `Utf8.ValidUpToIsLongest` | mono_rt/src/lib.rs:19 | no longer prefix is well-formed, so the reported position is the longest valid prefix |
| `Utf8.WellFormedIffValidUpToLength` | mono_rt/src/lib.rs:19 | a byte sequence is well-formed UTF-8 exactly when all of it is valid |
| `HostStrings.FirstZero` | mono_rt/src/lib.rs:21 | the position a `NulError` reports holds a zero byte and no earlier byte is zero |
| `HostStrings.CStringNew` | mono_rt/src/lib.rs:21 | `CString::new` succeeds iff there is no zero byte and then keeps the bytes unchanged; otherwise it reports the first zero byte |
| `HostStrings.OsStrToCString` | mono_rt/src/lib.rs:15-28 | succeeds iff the bytes are well-formed UTF-8 and contain no zero byte, and then returns exactly the input; the UTF-8 check comes first; the error is `InvalidUtf8` with the position `ValidUpTo` on Linux and `NotUnicode` elsewhere |
| `HostStrings.Utf8ErrorReportsLongestValidPrefix` | mono_rt/src/lib.rs:18-20 | on Linux, bytes that are not UTF-8 give an error whose position is the longest well-formed prefix, and that prefix is shorter than the input |
| `HostStrings.OsStrRoundTrip` | mono_rt/src/lib.rs:20-21 | converting an accepted result again gives the same result |
| `HostStrings.StrPathFailsOnlyOnNul` | mono_rt/src/lib.rs:17-26 | for bytes that came from a Rust `str`, the conversion on either target is exactly `CString::new` |
| `Lifecycle.Step` | mono_rt/src/domain.rs:15-59 | both flags only go from false to true; a creation succeeds only when the created flag was false and it sets that flag; a teardown succeeds only when the dropped flag was false and it sets that flag; a step from a state with `dropped ==> created` keeps it, provided a teardown happens only once a domain was created |
| `Lifecycle.CreateFatalIffEverCreatedOrDropped` | mono_rt/src/domain.rs:31-33 | `Domain::new` panics at its guard, with the flags unchanged, exactly when a domain was ever created or ever dropped |
| `Lifecycle.FailedCreatePoisons` | mono_rt/src/domain.rs:34-37 | a name with a zero byte is refused with an error, but afterwards every creation attempt panics |
| `Lifecycle.VersionedGuardAgrees` | mono_rt/src/domain.rs:46-49 | when `dropped ==> created` holds, the guard of `new_with_version` fires exactly when the guard of `new` does |
| `Lifecycle.TeardownOnce` | mono_rt/src/domain.rs:17-23 | a drop succeeds iff the process was not already dropped, and a second drop panics |
| `Lifecycle.RunMonotonic` | mono_rt/src/domain.rs:7-49 | over any sequence of operations, neither flag is ever reset to false |
| `Lifecycle.RunKeepsInvariant` | mono_rt/src/domain.rs:15-57 | every feasible sequence of operations keeps `dropped ==> created` |
| `Lifecycle.AtMostOneDomain` | mono_rt/src/domain.rs:29-59 | over any sequence of operations, at most one creation succeeds, and none once the created flag is set |
| `Lifecycle.AtMostOneTeardown` | mono_rt/src/domain.rs:15-26 | over any sequence of operations, at most one drop succeeds, and none once the dropped flag is set |
| `Domains.Process.constructor` | mono_rt/src/domain.rs:7-8 | a process starts with both flags false and no VM call made |
| `Domains.Process.New` | mono_rt/src/domain.rs:29-42 | implements `Step` for a creation; panics if a domain was ever created or dropped; sets the created flag before the name check; a zero byte in the name is an error; a null VM answer panics; the VM is initialised once, with the name |
| `Domains.Process.NewWithVersion` | mono_rt/src/domain.rs:44-59 | implements `Step` for a versioned creation; checks only the created flag; a zero byte in the name or the version, or a null VM answer, is an error and not a panic |
| `Domains.Process.Drop` | mono_rt/src/domain.rs:15-26 | implements `Step` for a teardown; the first drop sets the dropped flag and logs exactly one cleanup; a later drop panics and logs nothing; the invariant keeps the number of cleanups equal to 1 if dropped and 0 otherwise |
| `Domains.Process.Get` | mono_rt/src/domain.rs:63-73 | gives a domain iff created is set, dropped is not, and the VM's current-domain pointer is not null; the domain wraps that pointer |
| `Domains.GetOnlyWhenLive` | mono_rt/src/domain.rs:63-66 | `get` answers only in the Live phase |
| `Domains.Process.AddInternalCallRaw` | mono_rt/src/domain.rs:76-108 | a path with a zero byte is an error and no VM call is made; otherwise exactly one registration is logged |
| `Domains.Process.OpenAssembly` | mono_rt/src/domain.rs:110-122 | fails iff the path conversion fails or the VM answers null; on success the assembly keeps exactly the converted path bytes |
| `Domains.Process.CreateObject` | mono_rt/src/domain.rs:124-127 | logs one allocation and returns the VM's handle, which may be null |
| `Domains.Process.CreateArray` | mono_rt/src/domain.rs:129-132 | logs one allocation of `n` elements and returns the VM's handle, which may be null |
| `Domains.Process.CreateString` | mono_rt/src/domain.rs:134-138 | text with a zero byte is an error and no VM call is made; otherwise the string is allocated from the unchanged bytes |
| `Assemblies.ExecHelper` | mono_rt/src/assembly.rs:13-24 | argv[0] is the stored path and argv[1..] are the arguments in order; argc is the argv length cast to `i32`, which equals 1 + the number of arguments below 2^31 - 1 arguments; panics before anything runs when no live domain exists |
| `Assemblies.Exec` | mono_rt/src/assembly.rs:30-32 | runs the entry point with argv exactly [path] |
| `Assemblies.ConvertArgs` | mono_rt/src/assembly.rs:35-41 | succeeds iff no argument has a zero byte, and then keeps the arguments unchanged and in order; otherwise reports the first argument that has one |
| `Assemblies.ExecWithArgs` | mono_rt/src/assembly.rs:34-44 | an argument with a zero byte is an error, reported for the first such argument, and nothing runs; otherwise it behaves as `exec_helper` on the converted arguments |
| `Assemblies.GetImage` | mono_rt/src/assembly.rs:46-50 | panics iff the VM answers null; otherwise wraps the VM's image |
| `Assemblies.GetClass` | mono_rt/src/assembly.rs:60-72 | present iff neither the namespace nor the name has a zero byte and the VM's lookup is not null; wraps the VM's class |
| `Classes.GetFieldFromName` | mono_rt/src/class.rs:17-24 | present iff the name has no zero byte and the VM answers non-null; wraps that answer |
| `Classes.GetMethodFromName` | mono_rt/src/class.rs:26-35 | present iff the name has no zero byte and the VM answers non-null for that arity; wraps that answer |
| `Classes.GetParent` | mono_rt/src/class.rs:37-41 | absent exactly when the VM answers null |
| `Classes.Enumerate` | mono_rt/src/class.rs:47-54 | the loop returns, in order, exactly the answers of one cursor before its first null, and that null comes next |
| `Classes.GetMethods` | mono_rt/src/class.rs:43-57 | as written: enumerates a cursor whose slot starts as the address of a boxed 0, not null; returns that cursor's answers before its first null, none of them null |
| `Classes.GetMethodsAsWrittenMissesMethods` | mono_rt/src/class.rs:46 | as written: a class that has methods comes back with none when the VM answers null for the boxed slot at the first call |
| `Classes.NullCursorGivesMethodTable` | mono_rt/src/class.rs:43-57 | under the VM's cursor protocol, an enumeration from a null slot is exactly the class's method table, in order |
| `Classes.GetMethodsIntended` | mono_rt/src/class.rs:43-57 | corrected: with the cursor slot starting null, returns the class's whole method table in order |
| `Classes.MethodName` | mono_rt/src/class.rs:110-116 | returns the VM's name when it is UTF-8, and panics otherwise |
| `Classes.SignatureOf` | mono_rt/src/class.rs:144-148 | panics iff the VM's signature is null; otherwise wraps it |
| `Classes.SignatureEq` | mono_rt/src/class.rs:130-134 | as written: two signatures are equal exactly when the VM's predicate says they are not (returns 0) |
| `Classes.SignatureEqIrreflexive` | mono_rt/src/class.rs:130-134 | as written: a signature the VM's predicate reports equal to itself is not equal to itself |
| `Classes.MethodEquals` | mono_rt/src/class.rs:67-71 | when neither name nor signature lookup panics, two methods are equal iff their names are equal and the VM's signature predicate returns 0 (`PartialEq for MethodSignature`, class.rs 130-134); signatures are looked up only for equal names |
| `Classes.FieldType` | mono_rt/src/class.rs:169-173 | absent exactly when the VM answers null |
| `Classes.MethodEqualsIrreflexive` | mono_rt/src/class.rs:67-71 | as written: when the VM's predicate reports identical signatures as equal (non-zero), a method is not equal to itself |
| `Classes.MethodEqualsIntended` | mono_rt/src/class.rs:67-71 | corrected equality: panics exactly when `MethodEquals` does; otherwise equal iff the names are equal and the signature predicate returns non-zero |
| `Classes.MethodEqualsIntendedReflexive` | mono_rt/src/class.rs:130-134 | with the corrected comparison, a method equals itself, and equality is symmetric when the VM's predicate is |

## Findings

| source | as written | input that shows it | evidently intended | confidence | as-written member | corrected member |
|---|---|---|---|---|---|---|
| mono_rt/src/class.rs:130-134 | signatures are equal when `mono_metadata_signature_equal(a, b) == 0` | any method `m` with a UTF-8 name and a non-null signature, where the VM returns TRUE (non-zero) for identical signatures: `m == m` is false | signatures are equal when the predicate returns non-zero | medium, not executed; it rests on the VM's predicate returning a C boolean that is TRUE for equal signatures | `Classes.SignatureEqIrreflexive` | `Classes.MethodEqualsIntendedReflexive` |
| mono_rt/src/class.rs:46 | the cursor slot passed to `mono_class_get_methods` starts as the address of a boxed 0, so the first call already sees a non-null cursor | any class with at least one method, when the VM reads the non-null slot as a position outside the class's method table and answers null: `get_methods` returns an empty list | the slot starts null, so the enumeration begins at the class's first method | low, not executed; it rests on the VM's documented cursor protocol, in which only a null slot starts an enumeration | `Classes.GetMethodsAsWrittenMissesMethods` | `Classes.GetMethodsIntended` |

## Left out

- The VM itself and every foreign call. Each is an answer given by `Sys.Vm`. JIT initialisation and cleanup, assembly loading, GC allocation and managed execution are not modelled.
- `Method::invoke` and `invoke_array` (mono_rt/src/class.rs:84-108). Their arguments are untyped pointer-to-pointer vectors, and they run managed code; the host side has no behaviour to state.
- mono_rt/src/obj.rs is not part of this model. Every operation in it passes one call through, or does raw pointer arithmetic or buffer ownership.
- mono_rt/src/config.rs is not part of this model. Its only logic is the call of `osstr_to_cstring`, which is modelled.
- `MethodSignature::param_count`, `Assembly::as_ptr` and the commented-out field accessors only pass a pointer or a call through.
- Memory ownership: the `Box::leak` in `Domain::get`, the leaking of the cursor boxes in `get_methods`, `mono_free` when a field handle is dropped, and `into_raw` in `exec_helper` are not modelled. The address of the boxed 0 in `get_methods` is a parameter, because it decides where the VM's enumeration starts (see "## Findings").
- Classes.MethodName: models `mono_method_get_name` as a pure read. The source hands the VM's string to `CString::from_raw`, which frees it when it is dropped, although the VM owns that memory. Any later read of the same name, such as the second `get_name` that `m == m` makes, touches freed memory. The model does not capture this undefined behaviour, so `Classes.MethodEquals` and `Classes.MethodEqualsIrreflexive` assume both names read back intact.
- Concurrency: the flags are `static mut`, and data races between threads are not modelled. Operations run one after another.
- `add_internal_call0` to `add_internal_call3` differ only in the static type of the function pointer. They are modelled by `Domains.Process.AddInternalCallRaw`.
- Domains.Process.Drop: requires the created flag. A `Domain` value can only come from `new`, `new_with_version` or `get`, and all of these run after the flag is set.
- Classes.GetMethods: requires that the VM's cursor eventually answers null. Otherwise the source's loop does not terminate. `Sys.Vm.classGetMethods` gives the VM's answers for the slot the source actually passes, not for a cursor that starts null.
- HostStrings.OsStrToCString: the library builds only for unix targets, because it imports `std::os::unix`. On a unix target other than Linux, an `OsStr` is raw bytes, as on Linux, and `to_str` succeeds exactly when they are well-formed UTF-8. Only the error kind differs between the two branches.
- mono_sys/build.rs (binding generation and linking) and the demo programs under test.d are not part of this model.
