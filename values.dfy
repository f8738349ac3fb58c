/** Field access, field mutation and conversions of a foreign value: each
    operation checks its error conditions in the order the host library does
    and touches at most the one field it names. */
module Values {
  import opened Wrappers
  import opened Errors
  import opened Heap
  import opened Memory

  /** `deref_field`: reads the field if `validLayout` accepts its declared
      type (the host layout of the requested output type). */
  function DerefField(v: Value, idx: nat, validLayout: TypeId -> bool): (r: JlrsResult<Value?>)
    requires v.Valid() && idx < v.NFields()
    reads v.fields
    ensures r.Ok? <==> validLayout(v.ty.fieldTypes[idx])
    ensures r.Ok? ==> r.value == v.fields[idx]
    ensures r.Err? ==> r.error == InvalidLayout
  {
    if validLayout(v.ty.fieldTypes[idx]) then Ok(v.fields[idx]) else Err(InvalidLayout)
  }

  /** `unbox_nth_field`: the bounds check comes first. */
  function UnboxNthField(v: Value, idx: nat, validLayout: TypeId -> bool): (r: JlrsResult<Value?>)
    requires v.Valid()
    reads v.fields
    ensures r == Err(OutOfBounds(idx, v.NFields())) <==> idx >= v.NFields()
    ensures r.Ok? <==> idx < v.NFields() && validLayout(v.ty.fieldTypes[idx])
    ensures idx < v.NFields() && !validLayout(v.ty.fieldTypes[idx]) ==> r == Err(InvalidLayout)
    ensures r.Ok? ==> r.value == v.fields[idx]
  {
    if idx >= v.NFields() then Err(OutOfBounds(idx, v.NFields()))
    else DerefField(v, idx, validLayout)
  }

  /** `unbox_field`: the name lookup comes first. */
  function UnboxField(v: Value, name: Symbol, validLayout: TypeId -> bool): (r: JlrsResult<Value?>)
    requires v.Valid()
    reads v.fields
    ensures r == Err(NoSuchField(name)) <==> name !in v.ty.fieldNames
    ensures name in v.ty.fieldNames ==>
      (r.Ok? <==> validLayout(v.ty.fieldTypes[FieldIndex(v.ty.fieldNames, name)]))
    ensures name in v.ty.fieldNames && !validLayout(v.ty.fieldTypes[FieldIndex(v.ty.fieldNames, name)]) ==>
      r == Err(InvalidLayout)
    ensures r.Ok? ==> exists i :: 0 <= i < v.NFields() && v.ty.fieldNames[i] == name && r.value == v.fields[i]
  {
    var idx := FieldIndex(v.ty.fieldNames, name);
    if idx < 0 then Err(NoSuchField(name))
    else DerefField(v, idx, validLayout)
  }

  /** The decision of `get_nth_field`: which handle it roots, or why it fails. */
  function NthFieldToRoot(v: Value, idx: nat): (r: JlrsResult<Value>)
    requires v.Valid()
    reads v.fields
    ensures r == Err(OutOfBounds(idx, v.NFields())) <==> idx >= v.NFields()
    ensures r == Err(UndefRef) <==> idx < v.NFields() && v.fields[idx] == null
    ensures r.Ok? <==> idx < v.NFields() && v.fields[idx] != null
    ensures r.Ok? ==> r.value == v.fields[idx]
  {
    if idx >= v.NFields() then Err(OutOfBounds(idx, v.NFields()))
    else if v.fields[idx] == null then Err(UndefRef)
    else Ok(v.fields[idx])
  }

  /** `get_nth_field_ref`: only pointer fields can be referenced. */
  function GetNthFieldRef(v: Value, idx: nat): (r: JlrsResult<Value?>)
    requires v.Valid()
    reads v.fields
    ensures r == Err(OutOfBounds(idx, v.NFields())) <==> idx >= v.NFields()
    ensures r == Err(NotAPointerField(idx)) <==> idx < v.NFields() && !v.ty.isPtr[idx]
    ensures r.Ok? <==> idx < v.NFields() && v.ty.isPtr[idx]
    ensures r.Ok? ==> r.value == v.fields[idx]
  {
    if idx >= v.NFields() then Err(OutOfBounds(idx, v.NFields()))
    else if !v.ty.isPtr[idx] then Err(NotAPointerField(idx))
    else Ok(v.fields[idx])
  }

  /** `get_nth_field_unrooted`: the field as it is, possibly undefined. */
  function GetNthFieldUnrooted(v: Value, idx: nat): (r: JlrsResult<Value?>)
    requires v.Valid()
    reads v.fields
    ensures r.Err? <==> idx >= v.NFields()
    ensures r.Err? ==> r.error == OutOfBounds(idx, v.NFields())
    ensures r.Ok? ==> r.value == v.fields[idx]
  {
    if idx >= v.NFields() then Err(OutOfBounds(idx, v.NFields()))
    else Ok(v.fields[idx])
  }

  /** The decision of `get_field`: which handle it roots, or why it fails. */
  function FieldToRoot(v: Value, name: Symbol): (r: JlrsResult<Value>)
    requires v.Valid()
    reads v.fields
    ensures r == Err(NoSuchField(name)) <==> name !in v.ty.fieldNames
    ensures r == Err(UndefRef) <==> name in v.ty.fieldNames && v.fields[FieldIndex(v.ty.fieldNames, name)] == null
    ensures r.Ok? ==> exists i :: 0 <= i < v.NFields() && v.ty.fieldNames[i] == name && r.value == v.fields[i]
  {
    var idx := FieldIndex(v.ty.fieldNames, name);
    if idx < 0 then Err(NoSuchField(name))
    else if v.fields[idx] == null then Err(UndefRef)
    else Ok(v.fields[idx])
  }

  /** `get_field_ref`: the name lookup comes before the pointer check. */
  function GetFieldRef(v: Value, name: Symbol): (r: JlrsResult<Value?>)
    requires v.Valid()
    reads v.fields
    ensures r == Err(NoSuchField(name)) <==> name !in v.ty.fieldNames
    ensures r.Err? && r.error.NotAPointerField? <==>
      name in v.ty.fieldNames && !v.ty.isPtr[FieldIndex(v.ty.fieldNames, name)]
    ensures r.Ok? ==> exists i :: 0 <= i < v.NFields() && v.ty.fieldNames[i] == name && v.ty.isPtr[i] && r.value == v.fields[i]
  {
    var idx := FieldIndex(v.ty.fieldNames, name);
    if idx < 0 then Err(NoSuchField(name))
    else if !v.ty.isPtr[idx] then Err(NotAPointerField(idx))
    else Ok(v.fields[idx])
  }

  /** `get_field_unrooted`: fails only when the name is unknown. */
  function GetFieldUnrooted(v: Value, name: Symbol): (r: JlrsResult<Value?>)
    requires v.Valid()
    reads v.fields
    ensures r.Err? <==> name !in v.ty.fieldNames
    ensures r.Err? ==> r.error == NoSuchField(name)
    ensures r.Ok? ==> exists i :: 0 <= i < v.NFields() && v.ty.fieldNames[i] == name && r.value == v.fields[i]
  {
    var idx := FieldIndex(v.ty.fieldNames, name);
    if idx < 0 then Err(NoSuchField(name))
    else Ok(v.fields[idx])
  }

  /** Every name-based accessor behaves as its index-based counterpart at the
      position of the first field with that name. */
  lemma NamedAccessAtFieldIndex(v: Value, name: Symbol, validLayout: TypeId -> bool)
    requires v.Valid() && name in v.ty.fieldNames
    ensures var i := FieldIndex(v.ty.fieldNames, name);
      && 0 <= i < v.NFields()
      && FieldToRoot(v, name) == NthFieldToRoot(v, i)
      && GetFieldRef(v, name) == GetNthFieldRef(v, i)
      && GetFieldUnrooted(v, name) == GetNthFieldUnrooted(v, i)
      && UnboxField(v, name, validLayout) == UnboxNthField(v, i, validLayout)
  {
  }

  /** `get_nth_field`: roots the field it finds in `target`. */
  method GetNthField(target: Target, v: Value, idx: nat) returns (r: JlrsResult<Value>)
    requires v.Valid()
    modifies target
    ensures NthFieldToRoot(v, idx).Err? ==> r == NthFieldToRoot(v, idx) && target.roots == old(target.roots)
    ensures NthFieldToRoot(v, idx).Ok? ==> target.Took(v.fields[idx], v.fields[idx], r)
  {
    var found := NthFieldToRoot(v, idx);
    if found.Err? {
      return found;
    }
    r := target.Root(found.value);
  }

  /** `get_field`: roots the field it finds in `target`. */
  method GetField(target: Target, v: Value, name: Symbol) returns (r: JlrsResult<Value>)
    requires v.Valid()
    modifies target
    ensures FieldToRoot(v, name).Err? ==> r == FieldToRoot(v, name) && target.roots == old(target.roots)
    ensures FieldToRoot(v, name).Ok? ==>
      target.Took(FieldToRoot(v, name).value, FieldToRoot(v, name).value, r)
  {
    var found := FieldToRoot(v, name);
    if found.Err? {
      return found;
    }
    r := target.Root(found.value);
  }

  /** The checks of `set_nth_field`, in order: mutability, bounds, subtype. */
  function SetNthFieldCheck(v: Value, idx: nat, value: Value, subtype: (TypeId, TypeId) -> bool): (r: JlrsResult<()>)
    requires v.Valid()
    ensures !v.ty.mutable ==> r == Err(Immutable)
    ensures v.ty.mutable && idx >= v.NFields() ==> r == Err(OutOfBounds(idx, v.NFields()))
    ensures v.ty.mutable && idx < v.NFields() ==>
      (r.Ok? <==> subtype(value.ty.id, v.ty.fieldTypes[idx])) && (r.Err? ==> r.error == NotSubtype)
  {
    if !v.Is(MutableCheck) then Err(Immutable)
    else if idx >= v.NFields() then Err(OutOfBounds(idx, v.NFields()))
    else if subtype(value.ty.id, v.ty.fieldTypes[idx]) then Ok(())
    else Err(NotSubtype)
  }

  /** The checks of `set_field`, in order: mutability, name, subtype. */
  function SetFieldCheck(v: Value, name: Symbol, value: Value, subtype: (TypeId, TypeId) -> bool): (r: JlrsResult<()>)
    requires v.Valid()
    ensures !v.ty.mutable ==> r == Err(Immutable)
    ensures v.ty.mutable && name !in v.ty.fieldNames ==> r == Err(NoSuchField(name))
    ensures r.Ok? ==> name in v.ty.fieldNames
  {
    if !v.Is(MutableCheck) then Err(Immutable)
    else
      var idx := FieldIndex(v.ty.fieldNames, name);
      if idx < 0 then Err(NoSuchField(name))
      else if subtype(value.ty.id, v.ty.fieldTypes[idx]) then Ok(())
      else Err(NotSubtype)
  }

  /** Setting a field by name is setting it by index at the field's position. */
  lemma SetFieldAtFieldIndex(v: Value, name: Symbol, value: Value, subtype: (TypeId, TypeId) -> bool)
    requires v.Valid() && name in v.ty.fieldNames
    ensures SetFieldCheck(v, name, value, subtype)
         == SetNthFieldCheck(v, FieldIndex(v.ty.fieldNames, name), value, subtype)
  {
  }

  /** `set_nth_field`: on success exactly field `idx` changes, to `value`;
      on failure nothing changes. No other object is touched. */
  method SetNthField(v: Value, idx: nat, value: Value, subtype: (TypeId, TypeId) -> bool) returns (r: JlrsResult<()>)
    requires v.Valid()
    modifies v.fields
    ensures r == SetNthFieldCheck(v, idx, value, subtype)
    ensures r.Ok? ==> idx < v.NFields() && v.fields[..] == old(v.fields[..])[idx := value]
    ensures r.Err? ==> v.fields[..] == old(v.fields[..])
  {
    if !v.Is(MutableCheck) {
      return Err(Immutable);
    }
    if idx >= v.NFields() {
      return Err(OutOfBounds(idx, v.NFields()));
    }
    if subtype(value.ty.id, v.ty.fieldTypes[idx]) {
      v.fields[idx] := value;
      r := Ok(());
    } else {
      r := Err(NotSubtype);
    }
  }

  /** `set_field`: as `set_nth_field`, at the position of the named field. */
  method SetField(v: Value, name: Symbol, value: Value, subtype: (TypeId, TypeId) -> bool) returns (r: JlrsResult<()>)
    requires v.Valid()
    modifies v.fields
    ensures r == SetFieldCheck(v, name, value, subtype)
    ensures r.Ok? ==> v.fields[..] == old(v.fields[..])[FieldIndex(v.ty.fieldNames, name) := value]
    ensures r.Err? ==> v.fields[..] == old(v.fields[..])
  {
    if !v.Is(MutableCheck) {
      return Err(Immutable);
    }
    var idx := FieldIndex(v.ty.fieldNames, name);
    if idx < 0 {
      return Err(NoSuchField(name));
    }
    if subtype(value.ty.id, v.ty.fieldTypes[idx]) {
      v.fields[idx] := value;
      r := Ok(());
    } else {
      r := Err(NotSubtype);
    }
  }

  /** `cast`: succeeds, with the same handle, exactly when the typecheck holds. */
  function Cast(v: Value, c: Typecheck): (r: JlrsResult<Value>)
    ensures r.Ok? <==> v.ty.Satisfies(c)
    ensures r.Ok? ==> r.value == v
    ensures r.Err? ==> r.error == WrongType
  {
    if v.Is(c) then Ok(v) else Err(WrongType)
  }

  /** `unbox`: reads the payload exactly when the typecheck holds. */
  function Unbox(v: Value, c: Typecheck): (r: JlrsResult<int>)
    ensures r.Ok? <==> v.ty.Satisfies(c)
    ensures r.Ok? ==> r.value == v.data
    ensures r.Err? ==> r.error == WrongType
  {
    if !v.Is(c) then Err(WrongType) else Ok(v.data)
  }
}
