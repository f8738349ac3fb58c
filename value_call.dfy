/** Calling a foreign value and evaluating code: every entry point invokes the
    foreign runtime, reads the pending-exception slot straight away, and
    reports a raised exception as `Err` and a returned value as `Ok`, both
    handed to the target. The `unsafe_call*` family is the same code with a
    looser data lifetime and is modelled by the same members. */
module ValueCalls {
  import opened Wrappers
  import opened Errors
  import opened Heap
  import opened Memory
  import opened Foreign

  /** What a caller is told about a foreign call: `Err` with the exception
      exactly when the exception slot is set, otherwise `Ok` with the value. */
  function Outcome(reply: Reply): (r: JuliaResult)
    ensures r.Err? <==> reply.RawException() != null
    ensures r.Err? ==> r.error == reply.RawException()
    ensures r.Ok? ==> r.value == reply.RawResult()
  {
    match reply
    case Returned(v) => Ok(v)
    case Raised(e) => Err(e)
  }

  /** Calls `f` with the first `n` handles of `buf` and classifies the result
      by the exception slot, which is read before anything else happens. */
  method CallAndCatch(jl: Julia, f: Value, buf: seq<Value>, n: nat) returns (r: JuliaResult)
    requires n <= |buf|
    modifies jl
    ensures jl.CalledThenQueried(f, buf[..n])
    ensures r == Outcome(jl.respond(f, buf[..n]))
  {
    var res := jl.Call(f, buf, n);
    var exc := jl.ExceptionOccurred();
    if exc == null {
      r := Ok(res);
    } else {
      r := Err(exc);
    }
  }

  /** `call0`. */
  method Call0(jl: Julia, target: Target, f: Value) returns (out: JlrsResult<JuliaResult>)
    modifies jl, target
    ensures jl.CalledThenQueried(f, [])
    ensures target.Took(Payload(Outcome(jl.respond(f, []))), Outcome(jl.respond(f, [])), out)
  {
    var r := CallAndCatch(jl, f, [], 0);
    out := target.Place(r);
  }

  /** `call1`. */
  method Call1(jl: Julia, target: Target, f: Value, arg0: Value) returns (out: JlrsResult<JuliaResult>)
    modifies jl, target
    ensures jl.CalledThenQueried(f, [arg0])
    ensures target.Took(Payload(Outcome(jl.respond(f, [arg0]))), Outcome(jl.respond(f, [arg0])), out)
  {
    assert [arg0][..1] == [arg0];
    var r := CallAndCatch(jl, f, [arg0], 1);
    out := target.Place(r);
  }

  /** `call2`. */
  method Call2(jl: Julia, target: Target, f: Value, arg0: Value, arg1: Value) returns (out: JlrsResult<JuliaResult>)
    modifies jl, target
    ensures jl.CalledThenQueried(f, [arg0, arg1])
    ensures target.Took(Payload(Outcome(jl.respond(f, [arg0, arg1]))), Outcome(jl.respond(f, [arg0, arg1])), out)
  {
    assert [arg0, arg1][..2] == [arg0, arg1];
    var r := CallAndCatch(jl, f, [arg0, arg1], 2);
    out := target.Place(r);
  }

  /** `call3`. */
  method Call3(jl: Julia, target: Target, f: Value, arg0: Value, arg1: Value, arg2: Value)
    returns (out: JlrsResult<JuliaResult>)
    modifies jl, target
    ensures jl.CalledThenQueried(f, [arg0, arg1, arg2])
    ensures target.Took(Payload(Outcome(jl.respond(f, [arg0, arg1, arg2]))), Outcome(jl.respond(f, [arg0, arg1, arg2])), out)
  {
    assert [arg0, arg1, arg2][..3] == [arg0, arg1, arg2];
    var r := CallAndCatch(jl, f, [arg0, arg1, arg2], 3);
    out := target.Place(r);
  }

  /** `call`: any number of arguments, passed with their count. */
  method Call(jl: Julia, target: Target, f: Value, args: seq<Value>) returns (out: JlrsResult<JuliaResult>)
    modifies jl, target
    ensures jl.CalledThenQueried(f, args)
    ensures target.Took(Payload(Outcome(jl.respond(f, args))), Outcome(jl.respond(f, args)), out)
  {
    assert args[..|args|] == args;
    var r := CallAndCatch(jl, f, args, |args|);
    out := target.Place(r);
  }

  /** `call0_unrooted`. */
  method Call0Unrooted(jl: Julia, f: Value) returns (r: JuliaResult)
    modifies jl
    ensures jl.CalledThenQueried(f, [])
    ensures r == Outcome(jl.respond(f, []))
  {
    r := CallAndCatch(jl, f, [], 0);
  }

  /** `call1_unrooted`. */
  method Call1Unrooted(jl: Julia, f: Value, arg0: Value) returns (r: JuliaResult)
    modifies jl
    ensures jl.CalledThenQueried(f, [arg0])
    ensures r == Outcome(jl.respond(f, [arg0]))
  {
    assert [arg0][..1] == [arg0];
    r := CallAndCatch(jl, f, [arg0], 1);
  }

  /** `call2_unrooted`. */
  method Call2Unrooted(jl: Julia, f: Value, arg0: Value, arg1: Value) returns (r: JuliaResult)
    modifies jl
    ensures jl.CalledThenQueried(f, [arg0, arg1])
    ensures r == Outcome(jl.respond(f, [arg0, arg1]))
  {
    assert [arg0, arg1][..2] == [arg0, arg1];
    r := CallAndCatch(jl, f, [arg0, arg1], 2);
  }

  /** `call3_unrooted`. */
  method Call3Unrooted(jl: Julia, f: Value, arg0: Value, arg1: Value, arg2: Value) returns (r: JuliaResult)
    modifies jl
    ensures jl.CalledThenQueried(f, [arg0, arg1, arg2])
    ensures r == Outcome(jl.respond(f, [arg0, arg1, arg2]))
  {
    assert [arg0, arg1, arg2][..3] == [arg0, arg1, arg2];
    r := CallAndCatch(jl, f, [arg0, arg1, arg2], 3);
  }

  /** `call_unrooted`. */
  method CallUnrooted(jl: Julia, f: Value, args: seq<Value>) returns (r: JuliaResult)
    modifies jl
    ensures jl.CalledThenQueried(f, args)
    ensures r == Outcome(jl.respond(f, args))
  {
    assert args[..|args|] == args;
    r := CallAndCatch(jl, f, args, |args|);
  }

  /** `eval_string`: a command holding a NUL character cannot be turned into
      a C string and is refused before the runtime is entered. */
  method EvalString(jl: Julia, target: Target, cmd: string) returns (out: JlrsResult<JuliaResult>)
    modifies jl, target
    ensures '\0' in cmd ==> out == Err(InteriorNul) && unchanged(jl, target)
    ensures '\0' !in cmd ==> jl.EvaluatedThenQueried(cmd)
    ensures '\0' !in cmd ==> target.Took(Payload(Outcome(jl.evaluate(cmd))), Outcome(jl.evaluate(cmd)), out)
  {
    if '\0' in cmd {
      return Err(InteriorNul);
    }
    out := EvalCString(jl, target, cmd);
  }

  /** `eval_cstring`: the command is already a C string, so it holds no NUL. */
  method EvalCString(jl: Julia, target: Target, cmd: string) returns (out: JlrsResult<JuliaResult>)
    requires '\0' !in cmd
    modifies jl, target
    ensures jl.EvaluatedThenQueried(cmd)
    ensures target.Took(Payload(Outcome(jl.evaluate(cmd))), Outcome(jl.evaluate(cmd)), out)
  {
    var res := jl.EvalString(cmd);
    var exc := jl.ExceptionOccurred();
    var r: JuliaResult;
    if exc == null {
      r := Ok(res);
    } else {
      r := Err(exc);
    }
    out := target.Place(r);
  }
}
