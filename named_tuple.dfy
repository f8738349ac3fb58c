/** Building a NamedTuple from names and values: the macro that collects the
    pairs, the macro that counts them, and the length check before any type
    is built. */
module NamedTuples {
  import opened Wrappers
  import opened Errors
  import opened Heap

  /** One `name => value` pair of the macro. */
  type Pair = (Symbol, Value)

  /** The type `NamedTuple{names, Tuple{types...}}` instantiated with `values`. */
  datatype NamedTupleValue = NamedTupleValue(names: seq<Symbol>, types: seq<TypeId>, values: seq<Value>)

  /** The declared types of the values, in order. */
  function TypesOf(values: seq<Value>): (ts: seq<TypeId>)
    ensures |ts| == |values|
    ensures forall i :: 0 <= i < |values| ==> ts[i] == values[i].ty.id
  {
    seq(|values|, i requires 0 <= i < |values| => values[i].ty.id)
  }

  /** `new_named_tuple`: the two lengths must agree; the field types are the
      types of the values. */
  function NewNamedTuple(names: seq<Symbol>, values: seq<Value>): (r: JlrsResult<NamedTupleValue>)
    ensures r.Err? <==> |names| != |values|
    ensures r.Err? ==> r.error == NamedTupleSizeMismatch(|names|, |values|)
    ensures r.Ok? ==> r.value.names == names && r.value.values == values
    ensures r.Ok? ==> |r.value.types| == |values|
    ensures r.Ok? ==> forall i :: 0 <= i < |values| ==> r.value.types[i] == values[i].ty.id
  {
    if |names| != |values| then Err(NamedTupleSizeMismatch(|names|, |values|))
    else Ok(NamedTupleValue(names, TypesOf(values), values))
  }

  /** `count!` applied to the pairs after the first one. */
  function Count(rest: seq<Pair>): nat
    requires |rest| >= 1
  {
    if |rest| == 1 then 2 else CountFrom(2, rest[1..])
  }

  /** `count!` with an accumulated count `n`. */
  function CountFrom(n: nat, rest: seq<Pair>): nat
    requires |rest| >= 1
    decreases |rest|
  {
    if |rest| == 1 then n + 1 else CountFrom(n + 1, rest[1..])
  }

  /** The accumulated form adds one per remaining pair. */
  lemma {:induction false} CountFromAdds(n: nat, rest: seq<Pair>)
    requires |rest| >= 1
    ensures CountFrom(n, rest) == n + |rest|
    decreases |rest|
  {
    if |rest| > 1 {
      CountFromAdds(n + 1, rest[1..]);
    }
  }

  /** Counting the pairs after the first gives the number of all pairs, so the
      buffers the macro reserves hold every pair without growing. */
  lemma CountIsTotal(rest: seq<Pair>)
    requires |rest| >= 1
    ensures Count(rest) == |rest| + 1
  {
    if |rest| > 1 {
      CountFromAdds(2, rest[1..]);
    }
  }

  /** `named_tuple!`: pushes the names and the values pair by pair into two
      buffers reserved with the counted capacity, then builds the tuple. */
  method NamedTupleMacro(first: Pair, rest: seq<Pair>) returns (r: JlrsResult<NamedTupleValue>, capacity: nat)
    ensures capacity == |rest| + 1
    ensures r.Ok?
    ensures r.value.names == [first.0] + seq(|rest|, i requires 0 <= i < |rest| => rest[i].0)
    ensures r.value.values == [first.1] + seq(|rest|, i requires 0 <= i < |rest| => rest[i].1)
  {
    if rest == [] {
      capacity := 1;
      r := NewNamedTuple([first.0], [first.1]);
      return;
    }
    capacity := Count(rest);
    CountIsTotal(rest);
    var names: seq<Symbol> := [first.0];
    var values: seq<Value> := [first.1];
    var i := 0;
    while i < |rest|
      invariant 0 <= i <= |rest|
      invariant names == [first.0] + seq(i, k requires 0 <= k < i => rest[k].0)
      invariant values == [first.1] + seq(i, k requires 0 <= k < i => rest[k].1)
    {
      names := names + [rest[i].0];
      values := values + [rest[i].1];
      i := i + 1;
    }
    r := NewNamedTuple(names, values);
  }
}
