/** The reflective field lookup shared by `getBinding` and `getStyle`: the
    value must be a pointer to a struct, the struct must have a field of that
    name (possibly promoted from an embedded struct), and the field must have
    the wanted type.  Each failure is a distinct error, and so is the panic
    that reaching an unexported field causes.
 */
module Lookup {
  import opened Base
  import opened Reflect
  import opened Interface

  /** Which leaf type a lookup wants. */
  datatype Wanted = WantBinding | WantStyle

  predicate HasType(v: Value, w: Wanted) {
    match w
    case WantBinding => v.BindingVal?
    case WantStyle => v.StyleVal?
  }

  function WantedName(w: Wanted): string {
    match w
    case WantBinding => "key.Binding"
    case WantStyle => "lipgloss.Style"
  }

  /** Whether a field of this name is exported: its name starts with an
      upper-case letter.  Only the letters A to Z are recognised. */
  predicate Exported(name: string) {
    |name| > 0 && 'A' <= name[0] <= 'Z'
  }

  /** The path of the field named `name` in the struct `t` points to, when it
      has the wanted type. */
  function FindField(t: Target, name: string, w: Wanted): (r: Result<Path, Error>)
    ensures r.Ok? <==>
      && t.PointerTo? && t.pointee.StructVal?
      && FieldByName(t.pointee, name).Some?
      && GetAt(t.pointee, FieldByName(t.pointee, name).value).Some?
      && HasType(GetAt(t.pointee, FieldByName(t.pointee, name).value).value.val, w)
      && Exported(name)
    ensures r.Ok? ==> r.value == FieldByName(t.pointee, name).value
    ensures r.Ok? ==> IsFieldPath(t.pointee, r.value, name)
    ensures r.Err? && (t.NonPointer? || !t.pointee.StructVal?) ==>
      r.error == NotPointerToStruct(TargetTypeName(t))
    ensures r.Err? && t.PointerTo? && t.pointee.StructVal? && FieldByName(t.pointee, name).None? ==>
      r.error == NoSuchField(TargetTypeName(t), name)
    ensures r.Err? && t.PointerTo? && t.pointee.StructVal? && FieldByName(t.pointee, name).Some? ==>
      var f := GetAt(t.pointee, FieldByName(t.pointee, name).value);
      && (f.None? || !HasType(f.value.val, w) ==> r.error == WrongFieldType(TargetTypeName(t), name, WantedName(w)))
      && (f.Some? && HasType(f.value.val, w) ==> r.error == UnexportedField(TargetTypeName(t), name))
  {
    if t.NonPointer? || !t.pointee.StructVal? then Err(NotPointerToStruct(TargetTypeName(t)))
    else
      match FieldByName(t.pointee, name)
      case None => Err(NoSuchField(TargetTypeName(t), name))
      case Some(p) =>
        FieldPathGet(t.pointee, p, name);
        if !HasType(GetAt(t.pointee, p).value.val, w) then Err(WrongFieldType(TargetTypeName(t), name, WantedName(w)))
        else if !Exported(name) then Err(UnexportedField(TargetTypeName(t), name))
        else Ok(p)
  }

  /** The value of the field a successful lookup found. */
  function FoundValue(t: Target, name: string, w: Wanted): (v: Value)
    requires FindField(t, name, w).Ok?
    ensures HasType(v, w)
  {
    GetAt(t.pointee, FindField(t, name, w).value).value.val
  }

  /** Writes a new value of the wanted type into the field a lookup found. */
  function Store(t: Target, name: string, w: Wanted, x: Value): (r: Target)
    requires FindField(t, name, w).Ok? && HasType(x, w)
    ensures FindField(r, name, w) == FindField(t, name, w)
    ensures FoundValue(r, name, w) == x
    ensures forall q :: Diverge(FindField(t, name, w).value, q) ==> GetAt(r.pointee, q) == GetAt(t.pointee, q)
  {
    var p := FindField(t, name, w).value;
    var v := t.pointee;
    var r := PointerTo(SetAt(v, p, x));
    SetLeafKeepsLookup(v, p, x, name);
    GetSetSame(v, p, x);
    forall q | Diverge(p, q)
      ensures GetAt(r.pointee, q) == GetAt(v, q)
    {
      GetSetOther(v, p, x, q);
    }
    assert TypeName(r.pointee) == TypeName(v);
    r
  }
}
