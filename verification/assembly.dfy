/** Loaded assemblies and their images (mono_rt/src/assembly.rs): running
    the managed entry point with an argument vector, getting the metadata
    image, and looking a class up in it. */
module Assemblies {
  import opened Common
  import opened Utf8
  import opened Sys
  import opened Handles
  import opened HostStrings
  import opened Domains

  /** The log `after` is `before` with one more call: the entry point of
      `asm` run in `domain` with argv = the assembly's path followed by
      `args`, and argc = the length of argv cast to `i32`; `code` is what
      the run returned. */
  ghost predicate RanEntryPoint(before: seq<VmCall>, after: seq<VmCall>, domain: NonNull, asm: Assembly,
                                args: seq<CString>, vm: Vm, code: i32)
  {
    && |after| == |before| + 1
    && after[..|before|] == before
    && var c := after[|before|];
    && c.JitExec?
    && c.domain == domain && c.assembly == asm.raw
    && |c.argv| == |args| + 1
    && c.argv[0] == asm.path
    && c.argv[1..] == args
    && c.argc == AsI32(|c.argv|)
    && (|args| < 0x7FFF_FFFF ==> c.argc == |args| + 1)
    && code == vm.jitExec(domain, asm.raw, c.argc, c.argv)
  }

  /** `exec_helper`: builds argv from the stored path and `args`, then runs
      the entry point in the current domain; panics, before anything runs,
      when there is no live domain. */
  method ExecHelper(p: Process, asm: Assembly, args: seq<CString>, vm: Vm) returns (r: Outcome<i32>)
    requires p.Valid()
    modifies p`trace
    ensures p.Valid()
    ensures !r.Failure?
    ensures r.Panic? <==> p.Get(vm).None?
    ensures r.Panic? ==> r.fatal == NoLiveDomain && p.trace == old(p.trace)
    ensures r.Value? ==> RanEntryPoint(old(p.trace), p.trace, vm.domainGet, asm, args, vm, r.value)
  {
    var argv := [asm.path];
    argv := argv + args;
    var current := p.Get(vm);
    if current.None? {
      return Panic(NoLiveDomain);
    }
    var argc := AsI32(|argv|);
    var code := vm.jitExec(current.value.raw, asm.raw, argc, argv);
    p.Record(JitExec(current.value.raw, asm.raw, argc, argv));
    r := Value(code);
  }

  /** `exec`: runs the entry point with argv = [path] alone. */
  method Exec(p: Process, asm: Assembly, vm: Vm) returns (r: Outcome<i32>)
    requires p.Valid()
    modifies p`trace
    ensures p.Valid()
    ensures !r.Failure?
    ensures r.Panic? <==> p.Get(vm).None?
    ensures r.Panic? ==> r.fatal == NoLiveDomain && p.trace == old(p.trace)
    ensures r.Value? ==> RanEntryPoint(old(p.trace), p.trace, vm.domainGet, asm, [], vm, r.value)
  {
    r := ExecHelper(p, asm, [], vm);
  }

  /** The conversion loop of `exec_with_args`: every argument becomes a C
      string, or the first one with a zero byte is reported. */
  method ConvertArgs(args: seq<Str>) returns (r: Result<seq<CString>>)
    ensures r.Ok? <==> forall j :: 0 <= j < |args| ==> 0 !in args[j]
    ensures r.Ok? ==> r.value == args
    ensures r.Err? ==> exists k :: 0 <= k < |args| && 0 in args[k]
                                   && (forall j :: 0 <= j < k ==> 0 !in args[j])
                                   && r.error == CStringNew(args[k]).error
  {
    var v: seq<CString> := [];
    var i := 0;
    while i < |args|
      invariant 0 <= i <= |args|
      invariant v == args[..i]
      invariant forall j :: 0 <= j < i ==> 0 !in args[j]
    {
      var arg := CStringNew(args[i]);
      if arg.Err? {
        return Err(arg.error);
      }
      v := v + [arg.value];
      i := i + 1;
    }
    assert args[..i] == args;
    r := Ok(v);
  }

  /** `exec_with_args`: all arguments are converted before anything runs;
      an argument with a zero byte is an error and the entry point is not
      run. */
  method ExecWithArgs(p: Process, asm: Assembly, args: seq<Str>, vm: Vm) returns (r: Outcome<i32>)
    requires p.Valid()
    modifies p`trace
    ensures p.Valid()
    ensures r.Failure? <==> exists j :: 0 <= j < |args| && 0 in args[j]
    ensures r.Failure? ==> r.error.Nul? && p.trace == old(p.trace)
    ensures r.Failure? ==> exists k :: 0 <= k < |args| && 0 in args[k]
                                       && (forall j :: 0 <= j < k ==> 0 !in args[j])
                                       && r.error == CStringNew(args[k]).error
    ensures r.Panic? <==> (forall j :: 0 <= j < |args| ==> 0 !in args[j]) && p.Get(vm).None?
    ensures r.Panic? ==> r.fatal == NoLiveDomain && p.trace == old(p.trace)
    ensures r.Value? ==> RanEntryPoint(old(p.trace), p.trace, vm.domainGet, asm, args, vm, r.value)
  {
    var converted := ConvertArgs(args);
    if converted.Err? {
      return Failure(converted.error);
    }
    r := ExecHelper(p, asm, converted.value, vm);
  }

  /** `get_image`: the assembly's image; panics if the VM answers null. */
  function GetImage(asm: Assembly, vm: Vm): (r: Outcome<Image>)
    ensures !r.Failure?
    ensures r.Panic? <==> vm.assemblyGetImage(asm.raw) == Null
    ensures r.Panic? ==> r.fatal == NullImage
    ensures r.Value? ==> r.value.raw == vm.assemblyGetImage(asm.raw)
  {
    var ptr := vm.assemblyGetImage(asm.raw);
    if ptr == Null then Panic(NullImage) else Value(Image(ptr))
  }

  /** `Image::get_class`: absent when the namespace or the name has a zero
      byte (the VM is not asked) or when the VM finds no class. */
  function GetClass(img: Image, namespace: Str, name: Str, vm: Vm): (r: Option<MonoClass>)
    ensures r.Some? <==> 0 !in namespace && 0 !in name && vm.classFromNameCase(img.raw, namespace, name) != Null
    ensures r.Some? ==> r.value.raw == vm.classFromNameCase(img.raw, namespace, name)
  {
    var namespaceC := CStringNew(namespace);
    if namespaceC.Err? then None
    else
      var nameC := CStringNew(name);
      if nameC.Err? then None
      else
        var ptr := vm.classFromNameCase(img.raw, namespaceC.value, nameC.value);
        if ptr == Null then None else Some(MonoClass(ptr))
  }
}
