/** Reflective lookups on a class (mono_rt/src/class.rs): fields, methods,
    the parent class, the enumeration of a class's methods, and the
    equality of methods and of method signatures. */
module Classes {
  import opened Common
  import opened Utf8
  import opened Sys
  import opened Handles
  import opened HostStrings

  /** `get_field_from_name`: absent for a name with a zero byte (the VM is
      not asked) or when the VM finds no field. */
  function GetFieldFromName(c: MonoClass, name: Str, vm: Vm): (r: Option<ClassField>)
    ensures r.Some? <==> 0 !in name && vm.classGetFieldFromName(c.raw, name) != Null
    ensures r.Some? ==> r.value.raw == vm.classGetFieldFromName(c.raw, name)
  {
    var nameC := CStringNew(name);
    if nameC.Err? then None
    else
      var ptr := vm.classGetFieldFromName(c.raw, nameC.value);
      if ptr == Null then None else Some(ClassField(ptr))
  }

  /** `get_method_from_name`: absent for a name with a zero byte (the VM is
      not asked) or when the VM finds no method of that arity. */
  function GetMethodFromName(c: MonoClass, name: Str, paramCount: i32, vm: Vm): (r: Option<Method>)
    ensures r.Some? <==> 0 !in name && vm.classGetMethodFromName(c.raw, name, paramCount) != Null
    ensures r.Some? ==> r.value.raw == vm.classGetMethodFromName(c.raw, name, paramCount)
  {
    var nameC := CStringNew(name);
    if nameC.Err? then None
    else
      var ptr := vm.classGetMethodFromName(c.raw, nameC.value, paramCount);
      if ptr == Null then None else Some(Method(ptr))
  }

  /** `get_parent`: absent exactly when the VM answers null. */
  function GetParent(c: MonoClass, vm: Vm): (r: Option<MonoClass>)
    ensures r.None? <==> vm.classGetParent(c.raw) == Null
    ensures r.Some? ==> r.value.raw == vm.classGetParent(c.raw)
  {
    var ptr := vm.classGetParent(c.raw);
    if ptr == Null then None else Some(MonoClass(ptr))
  }

  /** `methods` holds, in order, every answer a cursor whose slot starts as
      `slot` gives before its first null, and that null comes next. */
  predicate Enumerated(c: MonoClass, slot: Ptr, vm: Vm, methods: seq<Method>)
  {
    && (forall j :: 0 <= j < |methods| ==>
          vm.classGetMethods(c.raw, slot, j) != Null && methods[j].raw == vm.classGetMethods(c.raw, slot, j))
    && vm.classGetMethods(c.raw, slot, |methods|) == Null
  }

  /** The loop of `get_methods`: calls the VM on one cursor until it answers
      null, collecting every answer before that null. The loop ends only if
      the VM's enumeration does. */
  method Enumerate(c: MonoClass, slot: Ptr, vm: Vm) returns (methods: seq<Method>)
    requires exists n: nat :: vm.classGetMethods(c.raw, slot, n) == Null
    ensures Enumerated(c, slot, vm, methods)
  {
    ghost var end: nat :| vm.classGetMethods(c.raw, slot, end) == Null;
    methods := [];
    var calls := 0;
    while true
      invariant calls == |methods| <= end
      invariant forall j :: 0 <= j < calls ==> vm.classGetMethods(c.raw, slot, j) != Null
      invariant forall j :: 0 <= j < calls ==> methods[j].raw == vm.classGetMethods(c.raw, slot, j)
      decreases end - calls
    {
      var x := vm.classGetMethods(c.raw, slot, calls);
      if x == Null {
        break;
      }
      methods := methods + [Method(x)];
      calls := calls + 1;
    }
  }

  /** `get_methods` as written: the cursor slot is filled with `boxed`, the
      address of a freshly boxed 0, so the VM never sees a null slot. */
  method GetMethods(c: MonoClass, boxed: NonNull, vm: Vm) returns (methods: seq<Method>)
    requires exists n: nat :: vm.classGetMethods(c.raw, boxed, n) == Null
    ensures Enumerated(c, boxed, vm, methods)
    ensures forall j :: 0 <= j < |methods| ==> methods[j].raw != Null
  {
    methods := Enumerate(c, boxed, vm);
  }

  /** The VM's cursor protocol for `mono_class_get_methods`: a cursor whose
      slot starts null yields the class's methods in order, then null. A
      non-null slot is read as the position of the method returned last. */
  ghost predicate NullCursorEnumeratesTable(c: MonoClass, vm: Vm) {
    forall k: nat :: vm.classGetMethods(c.raw, Null, k)
                     == (if k < |vm.methodTable(c.raw)| then vm.methodTable(c.raw)[k] else Null)
  }

  /** As written, a class that has methods can come back with none: when
      the boxed cell lies outside the class's method table, the VM answers
      null at the first call and `get_methods` returns the empty list. */
  lemma GetMethodsAsWrittenMissesMethods(c: MonoClass, boxed: NonNull, vm: Vm, methods: seq<Method>)
    requires NullCursorEnumeratesTable(c, vm) && |vm.methodTable(c.raw)| > 0
    requires vm.classGetMethods(c.raw, boxed, 0) == Null
    requires Enumerated(c, boxed, vm, methods)
    ensures methods == [] && |methods| < |vm.methodTable(c.raw)|
  {
  }

  /** With a null initial slot, an enumeration is exactly the class's
      method table. */
  lemma NullCursorGivesMethodTable(c: MonoClass, vm: Vm, methods: seq<Method>)
    requires NullCursorEnumeratesTable(c, vm)
    requires Enumerated(c, Null, vm, methods)
    ensures |methods| == |vm.methodTable(c.raw)|
    ensures forall j :: 0 <= j < |methods| ==> methods[j].raw == vm.methodTable(c.raw)[j]
  {
    var t: nat := |vm.methodTable(c.raw)|;
    assert vm.classGetMethods(c.raw, Null, |methods|) == Null;
    assert t < |methods| ==> vm.classGetMethods(c.raw, Null, t) != Null;
  }

  /** `get_methods` with the cursor slot starting null, as the VM's
      protocol asks: it returns the class's whole method table, in order. */
  method GetMethodsIntended(c: MonoClass, vm: Vm) returns (methods: seq<Method>)
    requires NullCursorEnumeratesTable(c, vm)
    ensures |methods| == |vm.methodTable(c.raw)|
    ensures forall j :: 0 <= j < |methods| ==> methods[j].raw == vm.methodTable(c.raw)[j]
  {
    assert vm.classGetMethods(c.raw, Null, |vm.methodTable(c.raw)|) == Null;
    methods := Enumerate(c, Null, vm);
    NullCursorGivesMethodTable(c, vm, methods);
  }

  /** `Method::get_name`: the name the VM gives, which must be UTF-8 or the
      conversion's `unwrap` panics. The name is read as it is; the release
      of the VM's string by `CString::from_raw` is not modelled. */
  function MethodName(m: Method, vm: Vm): (r: Outcome<Str>)
    ensures r.Value? <==> WellFormed(vm.methodGetName(m.raw))
    ensures r.Value? ==> r.value == vm.methodGetName(m.raw)
    ensures r.Panic? ==> r.fatal == NameNotUtf8
  {
    var bytes := vm.methodGetName(m.raw);
    if WellFormed(bytes) then Value(bytes) else Panic(NameNotUtf8)
  }

  /** `MethodSignature::new`: panics when the VM answers null. */
  function SignatureOf(m: Method, vm: Vm): (r: Outcome<MethodSignature>)
    ensures r.Value? <==> vm.methodSignature(m.raw) != Null
    ensures r.Value? ==> r.value.raw == vm.methodSignature(m.raw)
    ensures r.Panic? ==> r.fatal == NullSignature
  {
    var ptr := vm.methodSignature(m.raw);
    if ptr == Null then Panic(NullSignature) else Value(MethodSignature(ptr))
  }

  /** `PartialEq for MethodSignature`, as written: the VM's predicate
      compared with 0, which is the negation of what the predicate means. */
  function SignatureEq(a: MethodSignature, b: MethodSignature, vm: Vm): (r: bool)
    ensures r <==> !SignatureEqIntended(a, b, vm)
  {
    vm.metadataSignatureEqual(a.raw, b.raw) == 0
  }

  /** As written, a signature the VM's predicate reports equal to itself
      (non-zero, TRUE) is not equal to itself. */
  lemma SignatureEqIrreflexive(s: MethodSignature, vm: Vm)
    requires vm.metadataSignatureEqual(s.raw, s.raw) != 0
    ensures !SignatureEq(s, s, vm)
    ensures SignatureEqIntended(s, s, vm)
  {
  }

  /** `PartialEq for Method`: both names are fetched (either may panic);
      unequal names give false without touching the signatures; equal
      names compare the two signatures (either may panic). */
  function MethodEquals(a: Method, b: Method, vm: Vm): (r: Outcome<bool>)
    ensures !r.Failure?
    ensures r.Value? <==>
              && WellFormed(vm.methodGetName(a.raw)) && WellFormed(vm.methodGetName(b.raw))
              && (vm.methodGetName(a.raw) == vm.methodGetName(b.raw) ==>
                    vm.methodSignature(a.raw) != Null && vm.methodSignature(b.raw) != Null)
    ensures r.Value? ==>
              (r.value <==> vm.methodGetName(a.raw) == vm.methodGetName(b.raw)
                            && vm.metadataSignatureEqual(vm.methodSignature(a.raw), vm.methodSignature(b.raw)) == 0)
  {
    var na := MethodName(a, vm);
    if na.Panic? then Panic(na.fatal)
    else
      var nb := MethodName(b, vm);
      if nb.Panic? then Panic(nb.fatal)
      else if na.value != nb.value then Value(false)
      else
        var sa := SignatureOf(a, vm);
        if sa.Panic? then Panic(sa.fatal)
        else
          var sb := SignatureOf(b, vm);
          if sb.Panic? then Panic(sb.fatal)
          else Value(SignatureEq(sa.value, sb.value, vm))
  }

  /** `MonoClassField::get_type`: absent exactly when the VM answers null. */
  function FieldType(f: ClassField, vm: Vm): (r: Option<MonoType>)
    ensures r.None? <==> vm.fieldGetType(f.raw) == Null
    ensures r.Some? ==> r.value.raw == vm.fieldGetType(f.raw)
  {
    var ptr := vm.fieldGetType(f.raw);
    if ptr == Null then None else Some(MonoType(ptr))
  }

  /** The VM's signature predicate returns a C boolean: non-zero (TRUE)
      when the two signatures are equal. Compared with 0 as written, a
      method whose name and signature are readable is not equal to
      itself. */
  lemma MethodEqualsIrreflexive(m: Method, vm: Vm)
    requires WellFormed(vm.methodGetName(m.raw)) && vm.methodSignature(m.raw) != Null
    requires vm.metadataSignatureEqual(vm.methodSignature(m.raw), vm.methodSignature(m.raw)) != 0
    ensures MethodEquals(m, m, vm) == Value(false)
  {
  }

  /** Signature equality read as the VM's predicate intends it. */
  function SignatureEqIntended(a: MethodSignature, b: MethodSignature, vm: Vm): bool {
    vm.metadataSignatureEqual(a.raw, b.raw) != 0
  }

  /** Method equality with the intended signature comparison; otherwise as
      `MethodEquals`. */
  function MethodEqualsIntended(a: Method, b: Method, vm: Vm): (r: Outcome<bool>)
    ensures !r.Failure?
    ensures r.Value? <==> MethodEquals(a, b, vm).Value?
    ensures r.Value? ==>
              (r.value <==> vm.methodGetName(a.raw) == vm.methodGetName(b.raw)
                            && vm.metadataSignatureEqual(vm.methodSignature(a.raw), vm.methodSignature(b.raw)) != 0)
  {
    var na := MethodName(a, vm);
    if na.Panic? then Panic(na.fatal)
    else
      var nb := MethodName(b, vm);
      if nb.Panic? then Panic(nb.fatal)
      else if na.value != nb.value then Value(false)
      else
        var sa := SignatureOf(a, vm);
        if sa.Panic? then Panic(sa.fatal)
        else
          var sb := SignatureOf(b, vm);
          if sb.Panic? then Panic(sb.fatal)
          else Value(SignatureEqIntended(sa.value, sb.value, vm))
  }

  /** With the intended comparison, every method whose name and signature
      are readable equals itself, and equality is symmetric when the VM's
      predicate is. */
  lemma MethodEqualsIntendedReflexive(m: Method, n: Method, vm: Vm)
    requires WellFormed(vm.methodGetName(m.raw)) && vm.methodSignature(m.raw) != Null
    requires vm.metadataSignatureEqual(vm.methodSignature(m.raw), vm.methodSignature(m.raw)) != 0
    requires vm.methodSignature(n.raw) != Null
    requires (vm.metadataSignatureEqual(vm.methodSignature(m.raw), vm.methodSignature(n.raw)) != 0)
             == (vm.metadataSignatureEqual(vm.methodSignature(n.raw), vm.methodSignature(m.raw)) != 0)
    ensures MethodEqualsIntended(m, m, vm) == Value(true)
    ensures MethodEqualsIntended(m, n, vm) == MethodEqualsIntended(n, m, vm)
  {
  }
}
