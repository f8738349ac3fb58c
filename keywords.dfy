/** Calling a function with keyword arguments: the function and its
    NamedTuple of keywords are passed, keywords first, to the keyword sorter
    of the function's type, followed by the positional arguments. */
module Keywords {
  import opened Wrappers
  import opened Errors
  import opened Heap
  import opened Memory
  import opened Foreign
  import opened ValueCalls

  /** A function together with its keyword arguments. */
  datatype WithKeywords = WithKeywords(func: Value, keywords: Value)
  {
    /** `function()`. */
    function Function(): Value {
      func
    }

    /** `keywords()`. */
    function Keywords(): Value {
      keywords
    }
  }

  /** `WithKeywords::new`: the accessors give back what was passed. */
  function New(func: Value, keywords: Value): (w: WithKeywords)
    ensures w.Function() == func && w.Keywords() == keywords
  {
    WithKeywords(func, keywords)
  }

  /** `CallExt::with_keywords` of a value: the keyword arguments must be a
      NamedTuple. */
  function ProvideKeywords(func: Value, kws: Value): (r: JlrsResult<WithKeywords>)
    ensures r.Ok? <==> kws.ty.Satisfies(NamedTupleCheck)
    ensures r.Ok? ==> r.value.Function() == func && r.value.Keywords() == kws
    ensures r.Err? ==> r.error == NotANamedTuple
  {
    if !kws.Is(NamedTupleCheck) then Err(NotANamedTuple)
    else Ok(New(func, kws))
  }

  /** The keyword sorter of the function's type, which receives the call. */
  function Sorter(jl: Julia, w: WithKeywords): Value {
    jl.kwsorter(w.func.ty.id)
  }

  /** The argument buffer of `call`: the keywords and the function pushed
      first, then the positional arguments copied one by one. */
  method ArgumentBuffer(w: WithKeywords, args: seq<Value>) returns (vals: seq<Value>)
    ensures vals == [w.keywords, w.func] + args
  {
    vals := [];
    vals := vals + [w.keywords];
    vals := vals + [w.func];
    var i := 0;
    while i < |args|
      invariant 0 <= i <= |args|
      invariant vals == [w.keywords, w.func] + args[..i]
    {
      vals := vals + [args[i]];
      i := i + 1;
    }
  }

  /** `call0` of a function with keywords: the keyword sorter of the
      function's type receives the keywords, the function. */
  method Call0(jl: Julia, target: Target, w: WithKeywords) returns (out: JuliaResult)
    modifies jl, target
    ensures jl.CalledThenQueried(Sorter(jl, w), [w.keywords, w.func])
    ensures out == Outcome(jl.respond(Sorter(jl, w), [w.keywords, w.func]))
    ensures target.Kept(Payload(out))
  {
    var func := Sorter(jl, w);
    var args := [w.keywords, w.func];
    assert args[..2] == args;
    var r := CallAndCatch(jl, func, args, 2);
    out := target.Deliver(r);
  }

  /** `call1` of a function with keywords: the keyword sorter of the
      function's type receives the keywords, the function and `arg0`. */
  method Call1(jl: Julia, target: Target, w: WithKeywords, arg0: Value) returns (out: JuliaResult)
    modifies jl, target
    ensures jl.CalledThenQueried(Sorter(jl, w), [w.keywords, w.func, arg0])
    ensures out == Outcome(jl.respond(Sorter(jl, w), [w.keywords, w.func, arg0]))
    ensures target.Kept(Payload(out))
  {
    var func := Sorter(jl, w);
    var args := [w.keywords, w.func, arg0];
    assert args[..3] == args;
    var r := CallAndCatch(jl, func, args, 3);
    out := target.Deliver(r);
  }

  /** `call2` of a function with keywords: the keyword sorter of the
      function's type receives the keywords, the function and `arg0`, `arg1`. */
  method Call2(jl: Julia, target: Target, w: WithKeywords, arg0: Value, arg1: Value) returns (out: JuliaResult)
    modifies jl, target
    ensures jl.CalledThenQueried(Sorter(jl, w), [w.keywords, w.func, arg0, arg1])
    ensures out == Outcome(jl.respond(Sorter(jl, w), [w.keywords, w.func, arg0, arg1]))
    ensures target.Kept(Payload(out))
  {
    var func := Sorter(jl, w);
    var args := [w.keywords, w.func, arg0, arg1];
    assert args[..4] == args;
    var r := CallAndCatch(jl, func, args, 4);
    out := target.Deliver(r);
  }

  /** `call3` of a function with keywords: the keyword sorter of the
      function's type receives the keywords, the function and `arg0`, `arg1`, `arg2`. */
  method Call3(jl: Julia, target: Target, w: WithKeywords, arg0: Value, arg1: Value, arg2: Value) returns (out: JuliaResult)
    modifies jl, target
    ensures jl.CalledThenQueried(Sorter(jl, w), [w.keywords, w.func, arg0, arg1, arg2])
    ensures out == Outcome(jl.respond(Sorter(jl, w), [w.keywords, w.func, arg0, arg1, arg2]))
    ensures target.Kept(Payload(out))
  {
    var func := Sorter(jl, w);
    var args := [w.keywords, w.func, arg0, arg1, arg2];
    assert args[..5] == args;
    var r := CallAndCatch(jl, func, args, 5);
    out := target.Deliver(r);
  }

  /** `call` of a function with keywords: the buffer is the keywords, the
      function and the arguments, and its length is passed as the count. */
  method Call(jl: Julia, target: Target, w: WithKeywords, args: seq<Value>) returns (out: JuliaResult)
    modifies jl, target
    ensures jl.CalledThenQueried(Sorter(jl, w), [w.keywords, w.func] + args)
    ensures out == Outcome(jl.respond(Sorter(jl, w), [w.keywords, w.func] + args))
    ensures target.Kept(Payload(out))
  {
    var func := Sorter(jl, w);
    var vals := ArgumentBuffer(w, args);
    var n := |vals|;
    assert vals[..n] == vals;
    var r := CallAndCatch(jl, func, vals, n);
    out := target.Deliver(r);
  }
}
