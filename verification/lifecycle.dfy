/** The process-wide domain lifecycle (mono_rt/src/domain.rs) as a pure
    state machine over the two flags `DOMAIN_CREATED` and `DOMAIN_DROPPED`.
    `Step` is the specification the methods of `Domains.Process` implement;
    the lemmas below are what it guarantees over whole runs of a program. */
module Lifecycle {
  import opened Common

  datatype Flags = Flags(created: bool, dropped: bool) {
    /** The invariant of the two flags: a domain is dropped only once one
        was created. */
    predicate Valid() {
      dropped ==> created
    }
  }

  /** Both flags are false when the process starts. */
  const Start: Flags := Flags(false, false)

  datatype Phase = Unborn | Live | Dead

  function PhaseOf(f: Flags): Phase
    requires f.Valid()
  {
    if !f.created then Unborn else if f.dropped then Dead else Live
  }

  /** What a lifecycle operation finds when it runs: whether the names it
      converts contain no zero byte, and whether the VM answered non-null. */
  datatype Request =
    | Create(nameOk: bool, vmOk: bool)                            // Domain::new
    | CreateVersioned(nameOk: bool, versionOk: bool, vmOk: bool)  // Domain::new_with_version
    | Teardown                                                    // Drop::drop

  /** How an operation ends: with a value, with an error, or with a panic. */
  datatype Verdict = Succeeded | Refused | Fatal

  datatype Transition = Transition(flags: Flags, verdict: Verdict)

  function Classify<T>(o: Outcome<T>): Verdict {
    match o
    case Value(_) => Succeeded
    case Failure(_) => Refused
    case Panic(_) => Fatal
  }

  /** One lifecycle operation. Both flags only ever go from false to true;
      a creation succeeds only in an unborn process and leaves it live; a
      teardown succeeds only the first time and leaves the process dead. */
  function Step(f: Flags, q: Request): (t: Transition)
    ensures f.created ==> t.flags.created
    ensures f.dropped ==> t.flags.dropped
    ensures f.Valid() && (q.Teardown? ==> f.created) ==> t.flags.Valid()
    ensures t.verdict == Succeeded && !q.Teardown? ==> !f.created && t.flags.created
    ensures t.verdict == Succeeded && q.Teardown? ==> !f.dropped && t.flags.dropped
    ensures q.Teardown? ==> t.flags.created == f.created
    ensures !q.Teardown? ==> t.flags.dropped == f.dropped
  {
    match q
    case Create(nameOk, vmOk) =>
      if f.created || f.dropped then Transition(f, Fatal)
      else Transition(f.(created := true), if !nameOk then Refused else if !vmOk then Fatal else Succeeded)
    case CreateVersioned(nameOk, versionOk, vmOk) =>
      if f.created then Transition(f, Fatal)
      else Transition(f.(created := true), if nameOk && versionOk && vmOk then Succeeded else Refused)
    case Teardown =>
      if f.dropped then Transition(f, Fatal)
      else Transition(f.(dropped := true), Succeeded)
  }

  /** `Domain::new` panics at its guard, leaving the flags alone, exactly
      when a domain was ever created or ever dropped. */
  lemma CreateFatalIffEverCreatedOrDropped(f: Flags, nameOk: bool, vmOk: bool)
    ensures (Step(f, Create(nameOk, vmOk)) == Transition(f, Fatal)) <==> (f.created || f.dropped)
  {
  }

  /** `Domain::new` sets the created flag before it converts the name: a
      name with a zero byte is refused, yet every later creation panics. */
  lemma FailedCreatePoisons(vmOk: bool, later: Request)
    requires !later.Teardown?
    ensures Step(Start, Create(false, vmOk)).verdict == Refused
    ensures Step(Step(Start, Create(false, vmOk)).flags, later).verdict == Fatal
  {
  }

  /** `Domain::new_with_version` tests only the created flag, yet under the
      invariant its guard fires exactly when that of `Domain::new` does. */
  lemma VersionedGuardAgrees(f: Flags, nameOk: bool, versionOk: bool, vmOk: bool, nameOk': bool, vmOk': bool)
    requires f.Valid()
    ensures (Step(f, CreateVersioned(nameOk, versionOk, vmOk)) == Transition(f, Fatal))
            <==> (Step(f, Create(nameOk', vmOk')) == Transition(f, Fatal))
  {
  }

  /** A teardown succeeds exactly once: a second one panics. */
  lemma TeardownOnce(f: Flags)
    ensures Step(f, Teardown).verdict == Succeeded <==> !f.dropped
    ensures Step(Step(f, Teardown).flags, Teardown) == Transition(Step(f, Teardown).flags, Fatal)
  {
  }

  /** The flags after a run of operations. */
  function After(f: Flags, qs: seq<Request>): Flags
    decreases |qs|
  {
    if qs == [] then f else After(Step(f, qs[0]).flags, qs[1..])
  }

  /** The number of successful domain creations in a run. */
  function Creations(f: Flags, qs: seq<Request>): nat
    decreases |qs|
  {
    if qs == [] then 0
    else
      var t := Step(f, qs[0]);
      (if !qs[0].Teardown? && t.verdict == Succeeded then 1 else 0) + Creations(t.flags, qs[1..])
  }

  /** The number of successful teardowns (calls of the VM's cleanup) in a run. */
  function Teardowns(f: Flags, qs: seq<Request>): nat
    decreases |qs|
  {
    if qs == [] then 0
    else
      var t := Step(f, qs[0]);
      (if qs[0].Teardown? && t.verdict == Succeeded then 1 else 0) + Teardowns(t.flags, qs[1..])
  }

  /** A run a program can perform: it drops a domain only when one was
      created, because a `Domain` value exists only after that. */
  predicate Feasible(f: Flags, qs: seq<Request>)
    decreases |qs|
  {
    qs == [] || ((qs[0].Teardown? ==> f.created) && Feasible(Step(f, qs[0]).flags, qs[1..]))
  }

  /** Neither flag is ever reset, whatever the run. */
  lemma {:induction false} RunMonotonic(f: Flags, qs: seq<Request>)
    ensures f.created ==> After(f, qs).created
    ensures f.dropped ==> After(f, qs).dropped
    decreases |qs|
  {
    if qs != [] {
      RunMonotonic(Step(f, qs[0]).flags, qs[1..]);
    }
  }

  /** Every feasible run keeps `dropped ==> created`. */
  lemma {:induction false} RunKeepsInvariant(f: Flags, qs: seq<Request>)
    requires f.Valid() && Feasible(f, qs)
    ensures After(f, qs).Valid()
    decreases |qs|
  {
    if qs != [] {
      RunKeepsInvariant(Step(f, qs[0]).flags, qs[1..]);
    }
  }

  /** At most one domain is ever created in a process, and none once the
      created flag is set. */
  lemma {:induction false} AtMostOneDomain(f: Flags, qs: seq<Request>)
    ensures Creations(f, qs) <= (if f.created then 0 else 1)
    decreases |qs|
  {
    if qs != [] {
      AtMostOneDomain(Step(f, qs[0]).flags, qs[1..]);
    }
  }

  /** The VM is cleaned up at most once in a process, and never again once
      the dropped flag is set. */
  lemma {:induction false} AtMostOneTeardown(f: Flags, qs: seq<Request>)
    ensures Teardowns(f, qs) <= (if f.dropped then 0 else 1)
    decreases |qs|
  {
    if qs != [] {
      AtMostOneTeardown(Step(f, qs[0]).flags, qs[1..]);
    }
  }
}
