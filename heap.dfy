/** The foreign heap, abstracted: every object has a DataType and a fixed
    number of fields, each holding a (nullable) reference to another object.
    A Dafny reference of type `Value` stands for a non-null pointer into the
    foreign heap; `Value?` for a pointer that may be null. */
module Heap {
  import opened Errors

  type TypeId = nat

  /** The family of a DataType, as far as the modelled typechecks need it. */
  datatype Kind = ArrayKind | NamedTupleKind | OtherKind

  /** The typechecks the core performs (`Value::is::<T>()`). */
  datatype Typecheck =
    | MutableCheck             // `Mutable`: instances of the type are mutable
    | ArrayCheck               // `Array`
    | NamedTupleCheck          // `NamedTuple`
    | ExactType(id: TypeId)    // a concrete type such as `u64`: the type must be exactly this one

  /** Type information of a value: its identity, family, mutability and, per
      field, its name, declared type and whether it is stored as a pointer. */
  datatype DataType = DataType(
    id: TypeId,
    kind: Kind,
    mutable: bool,
    fieldNames: seq<Symbol>,
    fieldTypes: seq<TypeId>,
    isPtr: seq<bool>)
  {
    predicate WellFormed() {
      |fieldTypes| == |fieldNames| && |isPtr| == |fieldNames|
    }

    function NFields(): nat {
      |fieldNames|
    }

    predicate Satisfies(c: Typecheck) {
      match c
      case MutableCheck => mutable
      case ArrayCheck => kind == ArrayKind
      case NamedTupleCheck => kind == NamedTupleKind
      case ExactType(t) => id == t
    }
  }

  /** The position of the first field called `name`, or -1 when there is none
      (the foreign runtime's field-index lookup). */
  function FieldIndex(names: seq<Symbol>, name: Symbol): (r: int)
    ensures -1 <= r < |names|
    ensures r == -1 <==> name !in names
    ensures 0 <= r ==> names[r] == name && name !in names[..r]
  {
    if |names| == 0 then -1
    else if names[0] == name then 0
    else
      var k := FieldIndex(names[1..], name);
      if k < 0 then -1
      else
        assert names[..k + 1] == [names[0]] + names[1..][..k];
        k + 1
  }

  /** One object of the foreign heap. The type and the address are fixed; the
      contents of the field array may be updated in place. An inline field is
      represented by a reference to its boxed copy. */
  class Value {
    const ty: DataType
    const data: int                  // the payload a primitive unbox reads
    const fields: array<Value?>

    ghost predicate Valid() {
      ty.WellFormed() && fields.Length == ty.NFields()
    }

    constructor (ty: DataType, data: int, contents: seq<Value?>)
      requires ty.WellFormed() && |contents| == ty.NFields()
      ensures Valid() && fresh(fields)
      ensures this.ty == ty && this.data == data && fields[..] == contents
    {
      this.ty := ty;
      this.data := data;
      fields := new Value?[|contents|](i requires 0 <= i < |contents| => contents[i]);
    }

    /** `n_fields`: the number of fields of the value's type. */
    function NFields(): nat {
      ty.NFields()
    }

    /** `is::<T>()`: the typecheck is decided by the value's DataType alone. */
    predicate Is(c: Typecheck) {
      ty.Satisfies(c)
    }
  }
}
