/** The domain (mono_rt/src/domain.rs): the process-global lifecycle flags,
    the creation, lookup and teardown of the singleton domain, and the
    domain's factory operations. */
module Domains {
  import opened Common
  import opened Utf8
  import opened Sys
  import opened Handles
  import opened HostStrings
  import L = Lifecycle

  /** The process-wide state the facade keeps: the statics `DOMAIN_CREATED`
      and `DOMAIN_DROPPED`, and the log of the calls it made that change
      the VM. */
  class Process {
    var created: bool
    var dropped: bool
    var trace: seq<VmCall>

    /** A domain is dropped only after one was created, the VM is cleaned
        up exactly once if and only if a domain was dropped, and it was
        initialised at most once, and only after the created flag was set. */
    ghost predicate Valid()
      reads this
    {
      && (dropped ==> created)
      && Cleanups(trace) == (if dropped then 1 else 0)
      && Inits(trace) <= (if created then 1 else 0)
    }

    function Snapshot(): L.Flags
      reads this
    {
      L.Flags(created, dropped)
    }

    /** A process starts with both flags false and no VM call made. */
    constructor ()
      ensures Valid()
      ensures Snapshot() == L.Start && trace == []
    {
      created, dropped, trace := false, false, [];
    }

    /** Appends one call to the log, keeping the counts in step. */
    method Record(c: VmCall)
      modifies this`trace
      ensures trace == old(trace) + [c]
      ensures Cleanups(trace) == Cleanups(old(trace)) + (if c.JitCleanup? then 1 else 0)
      ensures Inits(trace) == Inits(old(trace)) + (if c.JitInit? || c.JitInitVersion? then 1 else 0)
    {
      CountsAppend(trace, c);
      trace := trace + [c];
    }

    /** `Domain::new`: panics if a domain was ever created or dropped; sets
        the created flag, then converts the name and initialises the VM,
        panicking if the VM answers null. */
    method New(name: Str, vm: Vm) returns (r: Outcome<Domain>)
      requires Valid()
      modifies this
      ensures Valid()
      ensures L.Transition(Snapshot(), L.Classify(r))
              == L.Step(old(Snapshot()), L.Create(0 !in name, 0 !in name && vm.jitInit(name) != Null))
      ensures r.Value? ==> 0 !in name && r.value.raw == vm.jitInit(name)
      ensures r.Failure? ==> r.error == CStringNew(name).error
      ensures r.Panic? ==> r.fatal == (if old(created || dropped) then DomainCreatedTwice else JitInitNull)
      ensures trace == old(trace) + (if !old(created || dropped) && 0 !in name then [JitInit(name)] else [])
    {
      if created || dropped {
        return Panic(DomainCreatedTwice);
      }
      created := true;
      var nameC := CStringNew(name);
      if nameC.Err? {
        return Failure(nameC.error);
      }
      var ptr := vm.jitInit(nameC.value);
      Record(JitInit(nameC.value));
      if ptr == Null {
        return Panic(JitInitNull);
      }
      r := Value(Domain(ptr));
    }

    /** `Domain::new_with_version`: panics only if a domain was ever
        created; sets the created flag, then converts both strings and
        initialises the VM, reporting a null answer as an error. */
    method NewWithVersion(name: Str, version: Str, vm: Vm) returns (r: Outcome<Domain>)
      requires Valid()
      modifies this
      ensures Valid()
      ensures L.Transition(Snapshot(), L.Classify(r))
              == L.Step(old(Snapshot()), L.CreateVersioned(0 !in name, 0 !in version,
                        0 !in name && 0 !in version && vm.jitInitVersion(name, version) != Null))
      ensures r.Value? ==> 0 !in name && 0 !in version && r.value.raw == vm.jitInitVersion(name, version)
      ensures r.Failure? ==> r.error == (if 0 in name then CStringNew(name).error
                                         else if 0 in version then CStringNew(version).error
                                         else InitVersionNull)
      ensures r.Panic? ==> r.fatal == DomainCreatedTwice && trace == old(trace)
      ensures trace == old(trace) + (if !old(created) && 0 !in name && 0 !in version
                                     then [JitInitVersion(name, version)] else [])
    {
      if created {
        return Panic(DomainCreatedTwice);
      }
      created := true;
      var nameC := CStringNew(name);
      if nameC.Err? {
        return Failure(nameC.error);
      }
      var versionC := CStringNew(version);
      if versionC.Err? {
        return Failure(versionC.error);
      }
      var ptr := vm.jitInitVersion(nameC.value, versionC.value);
      Record(JitInitVersion(nameC.value, versionC.value));
      if ptr == Null {
        return Failure(InitVersionNull);
      }
      r := Value(Domain(ptr));
    }

    /** `Drop::drop` of a domain: the first drop sets the dropped flag and
        cleans the VM up; any later drop panics and makes no call. A
        `Domain` value exists only once the created flag is set. */
    method Drop(d: Domain) returns (r: Outcome<()>)
      requires Valid() && created
      modifies this
      ensures Valid()
      ensures L.Transition(Snapshot(), L.Classify(r)) == L.Step(old(Snapshot()), L.Teardown)
      ensures r.Panic? ==> r.fatal == DomainDroppedTwice
      ensures trace == old(trace) + (if old(dropped) then [] else [JitCleanup(d.raw)])
    {
      if !dropped {
        dropped := true;
        Record(JitCleanup(d.raw));
        r := Value(());
      } else {
        r := Panic(DomainDroppedTwice);
      }
    }

    /** `Domain::get`: the current domain, only while the process is live
        and the VM names a non-null current domain. */
    function Get(vm: Vm): (r: Option<Domain>)
      reads this
      ensures r.Some? <==> created && !dropped && vm.domainGet != Null
      ensures r.Some? ==> r.value.raw == vm.domainGet
    {
      if !created || dropped then None
      else if vm.domainGet == Null then None
      else Some(Domain(vm.domainGet))
    }

    /** `add_internal_call_raw` (behind `add_internal_call0` to `3`): a path
        with a zero byte is refused before the VM is called. */
    method AddInternalCallRaw(d: Domain, path: Str, f: Ptr) returns (r: Result<()>)
      requires Valid()
      modifies this`trace
      ensures Valid()
      ensures r.Ok? <==> 0 !in path
      ensures r.Err? ==> r.error == CStringNew(path).error
      ensures trace == old(trace) + (if 0 !in path then [AddInternalCall(path, f)] else [])
    {
      var pathC := CStringNew(path);
      if pathC.Err? {
        return Err(pathC.error);
      }
      Record(AddInternalCall(pathC.value, f));
      r := Ok(());
    }

    /** `open_assembly`: converts the path, asks the VM to load it, and on
        success keeps exactly the converted bytes in the assembly. */
    method OpenAssembly(d: Domain, path: OsStr, target: Target, vm: Vm) returns (r: Result<Assembly>)
      requires Valid()
      modifies this`trace
      ensures Valid()
      ensures r.Ok? <==> OsStrToCString(path, target).Ok?
                         && vm.domainAssemblyOpen(d.raw, OsStrToCString(path, target).value) != Null
      ensures r.Ok? ==> r.value.path == path && r.value.raw == vm.domainAssemblyOpen(d.raw, path)
      ensures r.Err? ==> r.error == (if OsStrToCString(path, target).Err? then OsStrToCString(path, target).error
                                     else AssemblyOpenNull)
      ensures trace == old(trace) + (if OsStrToCString(path, target).Ok?
                                     then [DomainAssemblyOpen(d.raw, OsStrToCString(path, target).value)] else [])
    {
      var pathC := OsStrToCString(path, target);
      if pathC.Err? {
        return Err(pathC.error);
      }
      var ptr := vm.domainAssemblyOpen(d.raw, pathC.value);
      Record(DomainAssemblyOpen(d.raw, pathC.value));
      if ptr == Null {
        return Err(AssemblyOpenNull);
      }
      r := Ok(Assembly(ptr, pathC.value));
    }

    /** `create_object`: an uninitialised instance; the handle may be null. */
    method CreateObject(d: Domain, klass: MonoClass, vm: Vm) returns (o: MonoObject)
      requires Valid()
      modifies this`trace
      ensures Valid()
      ensures o.raw == vm.objectNew(d.raw, klass.raw)
      ensures trace == old(trace) + [ObjectNew(d.raw, klass.raw)]
    {
      var ptr := vm.objectNew(d.raw, klass.raw);
      Record(ObjectNew(d.raw, klass.raw));
      o := MonoObject(ptr);
    }

    /** `create_array`: an array of `n` elements of the given class; the
        handle may be null. */
    method CreateArray(d: Domain, elementClass: MonoClass, n: nat, vm: Vm) returns (a: MonoArray)
      requires Valid()
      modifies this`trace
      ensures Valid()
      ensures a.raw == vm.arrayNew(d.raw, elementClass.raw, n)
      ensures trace == old(trace) + [ArrayNew(d.raw, elementClass.raw, n)]
    {
      var ptr := vm.arrayNew(d.raw, elementClass.raw, n);
      Record(ArrayNew(d.raw, elementClass.raw, n));
      a := MonoArray(ptr);
    }

    /** `create_string`: text with a zero byte is refused before the VM is
        called; otherwise the VM allocates the string (the handle may be
        null). */
    method CreateString(d: Domain, text: Str, vm: Vm) returns (r: Result<MonoString>)
      requires Valid()
      modifies this`trace
      ensures Valid()
      ensures r.Ok? <==> 0 !in text
      ensures r.Ok? ==> r.value.raw == vm.stringNew(d.raw, text)
      ensures r.Err? ==> r.error == CStringNew(text).error
      ensures trace == old(trace) + (if 0 !in text then [StringNew(d.raw, text)] else [])
    {
      var textC := CStringNew(text);
      if textC.Err? {
        return Err(textC.error);
      }
      var ptr := vm.stringNew(d.raw, textC.value);
      Record(StringNew(d.raw, textC.value));
      r := Ok(MonoString(ptr));
    }
  }

  /** `Domain::get` answers only in the live phase. */
  lemma GetOnlyWhenLive(p: Process, vm: Vm)
    requires p.Valid()
    ensures p.Get(vm).Some? ==> L.PhaseOf(p.Snapshot()) == L.Live
    ensures L.PhaseOf(p.Snapshot()) != L.Live ==> p.Get(vm) == None
  {
  }
}
