/** The facade's handle types. Each wraps a raw VM pointer; the descriptor
    handles are never null, the object handles may be. */
module Handles {
  import opened Common

  datatype Domain = Domain(raw: NonNull)

  /** A loaded assembly keeps the C string of the path it was opened from. */
  datatype Assembly = Assembly(raw: NonNull, path: CString)

  datatype Image = Image(raw: NonNull)

  datatype MonoClass = MonoClass(raw: NonNull)

  datatype Method = Method(raw: NonNull)

  datatype MethodSignature = MethodSignature(raw: NonNull)

  datatype ClassField = ClassField(raw: NonNull)

  datatype MonoType = MonoType(raw: NonNull)

  datatype MonoObject = MonoObject(raw: Ptr)

  datatype MonoArray = MonoArray(raw: Ptr)

  datatype MonoString = MonoString(raw: Ptr)
}
