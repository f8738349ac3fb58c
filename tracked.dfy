/** The borrow-checked call: before calling, every argument that is an array
    is tracked, in argument order; the first array that cannot be tracked
    stops the search and fails the whole call with `BorrowError`, and then
    the foreign function is never invoked. */
module Tracked {
  import opened Wrappers
  import opened Errors
  import opened Heap
  import opened Memory
  import opened Foreign
  import opened ValueCalls
  import Keywords

  /** The callable kinds: a plain value or a function with keywords. */
  datatype Callable = Plain(callee: Value) | Keyworded(with: Keywords.WithKeywords)

  /** The function the runtime is asked to call. */
  function Callee(jl: Julia, c: Callable): Value {
    match c
    case Plain(f) => f
    case Keyworded(w) => Keywords.Sorter(jl, w)
  }

  /** The argument buffer the runtime receives. */
  function Buffer(c: Callable, args: seq<Value>): (buf: seq<Value>)
    ensures c.Plain? ==> buf == args
    ensures c.Keyworded? ==> buf == [c.with.keywords, c.with.func] + args
  {
    match c
    case Plain(_) => args
    case Keyworded(w) => [w.keywords, w.func] + args
  }

  /** `call` of either kind of callable through the target interface whose
      result is the outcome itself. */
  method CallCallable(jl: Julia, target: Target, c: Callable, args: seq<Value>) returns (out: JuliaResult)
    modifies jl, target
    ensures jl.CalledThenQueried(Callee(jl, c), Buffer(c, args))
    ensures out == Outcome(jl.respond(Callee(jl, c), Buffer(c, args)))
    ensures target.Kept(Payload(out))
  {
    match c
    case Plain(f) =>
      assert args[..|args|] == args;
      var r := CallAndCatch(jl, f, args, |args|);
      out := target.Deliver(r);
    case Keyworded(w) =>
      out := Keywords.Call(jl, target, w, args);
  }

  /** The host-side record of arrays whose data is currently borrowed, and
      the log of tracking attempts made against it. */
  class Ledger {
    var borrowed: set<Value>
    var attempts: seq<Value>

    constructor (borrowed: set<Value>)
      ensures this.borrowed == borrowed && attempts == []
    {
      this.borrowed := borrowed;
      attempts := [];
    }

    /** `track_mut`: fails when the array is already borrowed. The guard a
        successful attempt returns is dropped by the search at once, so the
        set of borrowed arrays is the same afterwards. */
    method TrackMut(a: Value) returns (ok: bool)
      modifies this
      ensures ok <==> a !in borrowed
      ensures borrowed == old(borrowed)
      ensures attempts == old(attempts) + [a]
    {
      ok := a !in borrowed;
      attempts := attempts + [a];
    }
  }

  /** The arguments that typecheck as arrays, in argument order. */
  function ArrayArgs(args: seq<Value>): (arrays: seq<Value>)
    ensures |arrays| <= |args|
    ensures forall j :: 0 <= j < |arrays| ==> arrays[j] in args && arrays[j].Is(ArrayCheck)
    ensures forall j :: 0 <= j < |args| && args[j].Is(ArrayCheck) ==> args[j] in arrays
  {
    if args == [] then []
    else (if args[0].Is(ArrayCheck) then [args[0]] else []) + ArrayArgs(args[1..])
  }

  lemma {:induction false} ArrayArgsConcat(a: seq<Value>, b: seq<Value>)
    ensures ArrayArgs(a + b) == ArrayArgs(a) + ArrayArgs(b)
  {
    if a == [] {
      assert a + b == b;
    } else {
      assert (a + b)[1..] == a[1..] + b;
      ArrayArgsConcat(a[1..], b);
    }
  }

  /** The arrays a search over `arrays` tries to track: all of them up to and
      including the first one that is borrowed. */
  function Attempted(arrays: seq<Value>, borrowed: set<Value>): seq<Value>
  {
    if arrays == [] then []
    else if arrays[0] in borrowed then [arrays[0]]
    else [arrays[0]] + Attempted(arrays[1..], borrowed)
  }

  /** The search tries a prefix of the arrays; every array before the last one
      tried was trackable; the last one tried failed exactly when some array
      is borrowed; and when none is, every array is tried. */
  lemma {:induction false} AttemptedStopsAtFirstFailure(arrays: seq<Value>, borrowed: set<Value>)
    ensures var tried := Attempted(arrays, borrowed);
      && tried <= arrays
      && (forall j :: 0 <= j < |tried| - 1 ==> tried[j] !in borrowed)
      && ((exists j :: 0 <= j < |arrays| && arrays[j] in borrowed) <==> (tried != [] && tried[|tried| - 1] in borrowed))
      && ((forall j :: 0 <= j < |arrays| ==> arrays[j] !in borrowed) ==> tried == arrays)
  {
    if arrays != [] && arrays[0] !in borrowed {
      AttemptedStopsAtFirstFailure(arrays[1..], borrowed);
      var rest := Attempted(arrays[1..], borrowed);
      assert Attempted(arrays, borrowed) == [arrays[0]] + rest;
      if exists j :: 0 <= j < |arrays| && arrays[j] in borrowed {
        var j :| 0 <= j < |arrays| && arrays[j] in borrowed;
        assert arrays[1..][j - 1] in borrowed;
      }
      if rest != [] && rest[|rest| - 1] in borrowed {
        assert rest[|rest| - 1] == arrays[1..][|rest| - 1];
        assert arrays[|rest|] in borrowed;
      }
    }
  }

  /** When the first borrowed array follows `pre`, the search tries `pre` and
      that array, and nothing after it. */
  lemma {:induction false} AttemptedAtConflict(pre: seq<Value>, x: Value, post: seq<Value>, borrowed: set<Value>)
    requires forall j :: 0 <= j < |pre| ==> pre[j] !in borrowed
    requires x in borrowed
    ensures Attempted(pre + [x] + post, borrowed) == pre + [x]
  {
    if pre == [] {
      assert pre + [x] + post == [x] + post;
    } else {
      assert (pre + [x] + post)[1..] == pre[1..] + [x] + post;
      AttemptedAtConflict(pre[1..], x, post, borrowed);
    }
  }

  /** Whether some array argument is already borrowed. */
  predicate Conflict(args: seq<Value>, borrowed: set<Value>) {
    var arrays := ArrayArgs(args);
    exists j :: 0 <= j < |arrays| && arrays[j] in borrowed
  }

  lemma ArrayArgsStep(args: seq<Value>, i: nat)
    requires i < |args|
    ensures ArrayArgs(args[..i + 1]) == ArrayArgs(args[..i]) + (if args[i].Is(ArrayCheck) then [args[i]] else [])
  {
    assert args[..i + 1] == args[..i] + [args[i]];
    ArrayArgsConcat(args[..i], [args[i]]);
    assert ArrayArgs([args[i]]) == (if args[i].Is(ArrayCheck) then [args[i]] else []) + ArrayArgs([]);
  }

  /** The search meeting a borrowed array at argument `i`, all arrays before
      it trackable: the arrays tried end with it and there is a conflict. */
  lemma ConflictAtArgument(args: seq<Value>, i: nat, borrowed: set<Value>)
    requires i < |args| && args[i].Is(ArrayCheck) && args[i] in borrowed
    requires forall j :: 0 <= j < |ArrayArgs(args[..i])| ==> ArrayArgs(args[..i])[j] !in borrowed
    ensures Attempted(ArrayArgs(args), borrowed) == ArrayArgs(args[..i]) + [args[i]]
    ensures Conflict(args, borrowed)
  {
    assert args == args[..i] + [args[i]] + args[i + 1..];
    ArrayArgsConcat(args[..i] + [args[i]], args[i + 1..]);
    ArrayArgsStep(args, i);
    assert args[..i] + [args[i]] == args[..i + 1];
    AttemptedAtConflict(ArrayArgs(args[..i]), args[i], ArrayArgs(args[i + 1..]), borrowed);
    var arrays := ArrayArgs(args);
    assert arrays[|ArrayArgs(args[..i])|] == args[i];
  }

  /** No array argument borrowed: every array is tried and no conflict. */
  lemma NoConflictTriesAll(args: seq<Value>, borrowed: set<Value>)
    requires forall j :: 0 <= j < |ArrayArgs(args)| ==> ArrayArgs(args)[j] !in borrowed
    ensures Attempted(ArrayArgs(args), borrowed) == ArrayArgs(args)
    ensures !Conflict(args, borrowed)
  {
    AttemptedStopsAtFirstFailure(ArrayArgs(args), borrowed);
  }

  /** The loop has looked at every argument without meeting a borrowed
      array: every array was tried and there is no conflict. */
  lemma SearchFinished(args: seq<Value>, i: nat, borrowed: set<Value>)
    requires i == |args|
    requires forall j :: 0 <= j < |ArrayArgs(args[..i])| ==> ArrayArgs(args[..i])[j] !in borrowed
    ensures Attempted(ArrayArgs(args), borrowed) == ArrayArgs(args[..i])
    ensures !Conflict(args, borrowed)
  {
    assert args[..i] == args;
    NoConflictTriesAll(args, borrowed);
  }

  /** The search of `call_tracked`: tracks the array arguments in order and
      stops at the first that cannot be tracked, reporting whether there
      was one. */
  method FindBorrowed(ledger: Ledger, args: seq<Value>) returns (found: bool)
    modifies ledger
    ensures ledger.borrowed == old(ledger.borrowed)
    ensures ledger.attempts == old(ledger.attempts) + Attempted(ArrayArgs(args), old(ledger.borrowed))
    ensures found <==> Conflict(args, old(ledger.borrowed))
  {
    ghost var b := ledger.borrowed;
    ghost var before := ledger.attempts;
    var i := 0;
    while i < |args|
      invariant 0 <= i <= |args|
      invariant ledger.borrowed == b
      invariant ledger.attempts == before + ArrayArgs(args[..i])
      invariant forall j :: 0 <= j < |ArrayArgs(args[..i])| ==> ArrayArgs(args[..i])[j] !in b
    {
      ArrayArgsStep(args, i);
      if args[i].Is(ArrayCheck) {
        var ok := ledger.TrackMut(args[i]);
        if !ok {
          ConflictAtArgument(args, i, b);
          return true;
        }
      }
      i := i + 1;
    }
    SearchFinished(args, i, b);
    found := false;
  }

  /** `call_tracked`: fails with `BorrowError`, without calling, exactly when
      an array argument is borrowed; the arrays tried are those before and
      including the first borrowed one; otherwise it is an ordinary call. */
  method CallTracked(jl: Julia, ledger: Ledger, target: Target, c: Callable, args: seq<Value>)
    returns (out: JlrsResult<JuliaResult>)
    modifies jl, ledger, target
    ensures ledger.borrowed == old(ledger.borrowed)
    ensures ledger.attempts == old(ledger.attempts) + Attempted(ArrayArgs(args), old(ledger.borrowed))
    ensures out.Err? <==> Conflict(args, old(ledger.borrowed))
    ensures out.Err? ==> out.error == BorrowError && unchanged(jl, target)
    ensures out.Ok? ==> jl.CalledThenQueried(Callee(jl, c), Buffer(c, args))
    ensures out.Ok? ==> out.value == Outcome(jl.respond(Callee(jl, c), Buffer(c, args)))
    ensures out.Ok? ==> target.Kept(Payload(out.value))
  {
    var found := FindBorrowed(ledger, args);
    if found {
      return Err(BorrowError);
    }
    var res := CallCallable(jl, target, c, args);
    out := Ok(res);
  }
}
