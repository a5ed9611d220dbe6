/** The bridge from host strings and paths to the C strings the VM takes:
    `CString::new`, used by every operation that passes a name to the VM,
    and `osstr_to_cstring` (mono_rt/src/lib.rs), used for file-system paths. */
module HostStrings {
  import opened Common
  import opened Utf8

  /** The index of the first zero byte (the position a `NulError` reports). */
  function FirstZero(s: seq<byte>): (i: nat)
    requires 0 in s
    ensures i < |s| && s[i] == 0
    ensures 0 !in s[..i]
    decreases |s|
  {
    if s[0] == 0 then 0
    else
      1 + FirstZero(s[1..])
  }

  /** `CString::new`: accept bytes without a zero byte, unchanged; otherwise
      report the first zero byte. */
  function CStringNew(s: seq<byte>): (r: Result<CString>)
    ensures r.Ok? <==> 0 !in s
    ensures r.Ok? ==> r.value == s
    ensures r.Err? ==> r.error.Nul? && r.error.position < |s|
                       && s[r.error.position] == 0 && 0 !in s[..r.error.position]
  {
    if 0 in s then Err(Nul(FirstZero(s))) else Ok(s)
  }

  /** The target the library is compiled for: `cfg!(target_os = "linux")`. */
  datatype Target = Linux | NotLinux

  /** An `OsStr` as bytes. The library builds only for unix targets (it
      imports `std::os::unix`), where an `OsStr` is arbitrary bytes on Linux
      and on every other unix alike; `to_str` accepts them exactly when they
      are well-formed UTF-8. */
  type OsStr = seq<byte>

  /** `osstr_to_cstring`: check UTF-8 first, then the absence of zero bytes;
      on success the C string holds exactly the input bytes. */
  function OsStrToCString(os: OsStr, target: Target): (r: Result<CString>)
    ensures r.Ok? <==> WellFormed(os) && 0 !in os
    ensures r.Ok? ==> r.value == os
    ensures !WellFormed(os) ==> r == Err(if target == Linux then InvalidUtf8(ValidUpTo(os)) else NotUnicode)
    ensures WellFormed(os) && 0 in os ==> r.Err? && r.error.Nul?
  {
    if !WellFormed(os) then
      Err(if target == Linux then InvalidUtf8(ValidUpTo(os)) else NotUnicode)
    else
      CStringNew(os)
  }

  /** On Linux, the error for bytes that are not UTF-8 reports the longest
      well-formed prefix, which stops short of the whole input. */
  lemma Utf8ErrorReportsLongestValidPrefix(os: OsStr)
    requires !WellFormed(os)
    ensures OsStrToCString(os, Linux) == Err(InvalidUtf8(ValidUpTo(os)))
    ensures ValidUpTo(os) < |os| && WellFormed(os[..ValidUpTo(os)])
    ensures forall k :: ValidUpTo(os) < k <= |os| ==> !WellFormed(os[..k])
  {
    WellFormedIffValidUpToLength(os);
    ValidUpToIsValid(os);
    forall k | ValidUpTo(os) < k <= |os|
      ensures !WellFormed(os[..k])
    {
      ValidUpToIsLongest(os, k);
    }
  }

  /** The conversion round-trips: whatever it accepts comes back byte for
      byte, and an accepted C string converts again to itself. */
  lemma OsStrRoundTrip(os: OsStr, target: Target)
    requires OsStrToCString(os, target).Ok?
    ensures OsStrToCString(OsStrToCString(os, target).value, target) == OsStrToCString(os, target)
  {
  }

  /** A path spelled from a Rust `str` fails to convert only because of a
      zero byte, and then on every target with the same error. */
  lemma StrPathFailsOnlyOnNul(s: Str, target: Target)
    ensures OsStrToCString(s, target) == CStringNew(s)
  {
  }
}
