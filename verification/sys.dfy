/** The raw embedding API of the VM (the `mono_sys` bindings), seen from the
    facade. The VM itself is not modelled: each entry point the facade calls
    is a field of `Vm` that gives the VM's answer for the arguments, and the
    entry points that change the VM are also written to a log of `VmCall`s. */
module Sys {
  import opened Common

  /** The answers of the VM's entry points. A pointer result may be null. */
  datatype Vm = Vm(
    jitInit: CString -> Ptr,                                 // mono_jit_init
    jitInitVersion: (CString, CString) -> Ptr,               // mono_jit_init_version
    domainGet: Ptr,                                          // mono_domain_get
    domainAssemblyOpen: (NonNull, CString) -> Ptr,           // mono_domain_assembly_open
    objectNew: (NonNull, NonNull) -> Ptr,                    // mono_object_new
    arrayNew: (NonNull, NonNull, nat) -> Ptr,                // mono_array_new
    stringNew: (NonNull, CString) -> Ptr,                    // mono_string_new
    jitExec: (NonNull, NonNull, i32, seq<CString>) -> i32,   // mono_jit_exec
    assemblyGetImage: NonNull -> Ptr,                        // mono_assembly_get_image
    classFromNameCase: (NonNull, CString, CString) -> Ptr,   // mono_class_from_name_case
    classGetFieldFromName: (NonNull, CString) -> Ptr,        // mono_class_get_field_from_name
    classGetMethodFromName: (NonNull, CString, i32) -> Ptr,  // mono_class_get_method_from_name
    classGetParent: NonNull -> Ptr,                          // mono_class_get_parent
    classGetMethods: (NonNull, Ptr, nat) -> Ptr,             // mono_class_get_methods, k-th call on a cursor whose slot starts as the given pointer
    methodTable: NonNull -> seq<NonNull>,                    // the class's methods in metadata order; not a call the facade makes
    methodGetName: NonNull -> CString,                       // mono_method_get_name, bytes before the terminator
    methodSignature: NonNull -> Ptr,                         // mono_method_signature
    metadataSignatureEqual: (NonNull, NonNull) -> int,       // mono_metadata_signature_equal
    fieldGetType: NonNull -> Ptr                             // mono_field_get_type
  )

  /** A call that changes the VM, as the facade makes it. */
  datatype VmCall =
    | JitInit(name: CString)
    | JitInitVersion(name: CString, version: CString)
    | JitCleanup(domain: NonNull)
    | AddInternalCall(path: CString, target: Ptr)
    | DomainAssemblyOpen(domain: NonNull, path: CString)
    | ObjectNew(domain: NonNull, klass: NonNull)
    | ArrayNew(domain: NonNull, elementClass: NonNull, length: nat)
    | StringNew(domain: NonNull, text: CString)
    | JitExec(domain: NonNull, assembly: NonNull, argc: i32, argv: seq<CString>)

  /** The number of `mono_jit_cleanup` calls in a log. */
  function Cleanups(log: seq<VmCall>): nat
  {
    if |log| == 0 then 0
    else Cleanups(log[..|log| - 1]) + (if log[|log| - 1].JitCleanup? then 1 else 0)
  }

  /** The number of VM initialisations (either entry point) in a log. */
  function Inits(log: seq<VmCall>): nat
  {
    if |log| == 0 then 0
    else Inits(log[..|log| - 1]) + (if log[|log| - 1].JitInit? || log[|log| - 1].JitInitVersion? then 1 else 0)
  }

  /** Appending one call changes each count by that call alone. */
  lemma CountsAppend(log: seq<VmCall>, c: VmCall)
    ensures Cleanups(log + [c]) == Cleanups(log) + (if c.JitCleanup? then 1 else 0)
    ensures Inits(log + [c]) == Inits(log) + (if c.JitInit? || c.JitInitVersion? then 1 else 0)
  {
    assert (log + [c])[..|log|] == log;
  }
}
