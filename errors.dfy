/** The host-side error taxonomy the modelled operations can report. */
module Errors {
  import opened Wrappers

  type Symbol = string

  datatype JlrsError =
    | OutOfBounds(idx: nat, nFields: nat)          // a field index at or past the field count
    | NoSuchField(name: Symbol)                     // the type has no field with that name
    | UndefRef                                      // the field holds no value yet
    | NotAPointerField(field: nat)                  // the field is stored inline
    | Immutable                                     // the value's type is not mutable
    | NotSubtype                                    // the new field value has the wrong type
    | InvalidLayout                                 // the requested layout does not match the field
    | WrongType                                     // a cast or unbox typecheck failed
    | NotANamedTuple                                // keyword arguments that are not a NamedTuple
    | NamedTupleSizeMismatch(nNames: nat, nValues: nat)
    | BorrowError                                   // an array argument is already borrowed
    | CapacityExceeded(capacity: nat)               // the target has no free root slot
    | InteriorNul                                   // a command string holds a NUL character

  type JlrsResult<T> = Result<T, JlrsError>
}
