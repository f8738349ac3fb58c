/** A stub of the foreign runtime's C interface: the call entry points, the
    evaluator, the keyword sorter lookup and the pending-exception slot. What
    a foreign function does is given by the oracle `respond`; every entry into
    the runtime is recorded in `trace`, so that a caller's effect on the
    runtime can be stated exactly. */
module Foreign {
  import opened Heap

  /** What a foreign function does: it returns a value or raises one. */
  datatype Reply = Returned(ret: Value) | Raised(exc: Value)
  {
    /** The pointer the call entry point returns: null when the call raised. */
    function RawResult(): Value? {
      if Returned? then ret else null
    }

    /** What the pending-exception slot holds after the call. */
    function RawException(): Value? {
      if Raised? then exc else null
    }
  }

  datatype Event =
    | Invoked(callee: Value, args: seq<Value>)   // a call entry point with its argument buffer
    | ExceptionQueried                           // the pending-exception slot was read
    | Evaluated(cmd: string)                     // a string of code was evaluated

  class Julia {
    const respond: (Value, seq<Value>) -> Reply
    const evaluate: string -> Reply
    const kwsorter: TypeId -> Value
    var exception: Value?
    var trace: seq<Event>

    constructor (respond: (Value, seq<Value>) -> Reply, evaluate: string -> Reply, kwsorter: TypeId -> Value)
      ensures this.respond == respond && this.evaluate == evaluate && this.kwsorter == kwsorter
      ensures exception == null && trace == []
    {
      this.respond := respond;
      this.evaluate := evaluate;
      this.kwsorter := kwsorter;
      exception := null;
      trace := [];
    }

    /** This state follows the previous one by one call of `f` with `args`
        and then one read of the pending-exception slot, which is left
        holding what the call raised, or null. */
    twostate predicate CalledThenQueried(new f: Value, new args: seq<Value>)
      reads this
    {
      && trace == old(trace) + [Invoked(f, args), ExceptionQueried]
      && exception == respond(f, args).RawException()
    }

    /** The same for one evaluation of `cmd`. */
    twostate predicate EvaluatedThenQueried(cmd: string)
      reads this
    {
      && trace == old(trace) + [Evaluated(cmd), ExceptionQueried]
      && exception == evaluate(cmd).RawException()
    }

    /** The call entry point: calls `f` with the first `n` handles of `buf`.
        The pending-exception slot afterwards holds what the call raised, or
        null when it returned normally. */
    method Call(f: Value, buf: seq<Value>, n: nat) returns (res: Value?)
      requires n <= |buf|
      modifies this
      ensures res == respond(f, buf[..n]).RawResult()
      ensures exception == respond(f, buf[..n]).RawException()
      ensures trace == old(trace) + [Invoked(f, buf[..n])]
    {
      var reply := respond(f, buf[..n]);
      res := reply.RawResult();
      exception := reply.RawException();
      trace := trace + [Invoked(f, buf[..n])];
    }

    /** Evaluates a string of code, with the same exception protocol. */
    method EvalString(cmd: string) returns (res: Value?)
      modifies this
      ensures res == evaluate(cmd).RawResult()
      ensures exception == evaluate(cmd).RawException()
      ensures trace == old(trace) + [Evaluated(cmd)]
    {
      var reply := evaluate(cmd);
      res := reply.RawResult();
      exception := reply.RawException();
      trace := trace + [Evaluated(cmd)];
    }

    /** Reads the pending-exception slot without changing it. */
    method ExceptionOccurred() returns (exc: Value?)
      modifies this
      ensures exc == exception && exception == old(exception)
      ensures trace == old(trace) + [ExceptionQueried]
    {
      exc := exception;
      trace := trace + [ExceptionQueried];
    }
  }
}
