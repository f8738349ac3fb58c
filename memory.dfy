/** The target a value-producing operation hands its result to. A rooting
    target owns a range of root slots of bounded capacity and roots every
    handle it receives; an unrooting target returns handles as they are. */
module Memory {
  import opened Wrappers
  import opened Errors
  import opened Heap

  /** The result of a foreign call: a returned value or a raised exception. */
  type JuliaResult = Result<Value, Value>

  /** The handle a call result carries, whichever branch it is. */
  function Payload(r: JuliaResult): (v: Value)
    ensures r.Ok? ==> v == r.value
    ensures r.Err? ==> v == r.error
  {
    match r
    case Ok(v) => v
    case Err(e) => e
  }

  class Target {
    const rooting: bool
    const capacity: nat
    var roots: seq<Value>

    /** A scope's frame with `capacity` root slots. */
    constructor Frame(capacity: nat)
      ensures rooting && this.capacity == capacity && roots == []
    {
      rooting := true;
      this.capacity := capacity;
      roots := [];
    }

    /** The target that leaves results unrooted. */
    constructor Unrooted()
      ensures !rooting && roots == []
    {
      rooting := false;
      capacity := 0;
      roots := [];
    }

    predicate HasRoom()
      reads this
    {
      !rooting || |roots| < capacity
    }

    /** Handing `v` to this target took it from the previous state to this
        one: a rooting target with a free slot roots `v` and answers `out`
        with `x`; a full one roots nothing and reports that it is full; an
        unrooting target roots nothing and answers with `x`. */
    twostate predicate Took<T>(new v: Value, new x: T, new out: JlrsResult<T>)
      reads this
    {
      && out == (if old(HasRoom()) then Ok(x) else Err(CapacityExceeded(capacity)))
      && roots == (if rooting && old(HasRoom()) then old(roots) + [v] else old(roots))
    }

    /** Handing `v` to a target through the interface whose result is the
        handle itself: a rooting target roots it, an unrooting one does not,
        and nothing can fail. */
    twostate predicate Kept(new v: Value)
      reads this
    {
      roots == (if rooting then old(roots) + [v] else old(roots))
    }

    /** Roots one handle. */
    method Root(v: Value) returns (r: JlrsResult<Value>)
      modifies this
      ensures Took(v, v, r)
    {
      if !HasRoom() {
        return Err(CapacityExceeded(capacity));
      }
      if rooting {
        roots := roots + [v];
      }
      r := Ok(v);
    }

    /** Roots the handle of a call result, the exception included, and keeps
        its tag. */
    method Place(res: JuliaResult) returns (r: JlrsResult<JuliaResult>)
      modifies this
      ensures Took(Payload(res), res, r)
    {
      var rooted := Root(Payload(res));
      if rooted.Err? {
        return Err(rooted.error);
      }
      r := Ok(res);
    }

    /** Hands a call result to the target and gives it back as it is; the
        handle of either branch is rooted by a rooting target. */
    method Deliver(res: JuliaResult) returns (r: JuliaResult)
      modifies this
      ensures r == res
      ensures Kept(Payload(res))
    {
      if rooting {
        roots := roots + [Payload(res)];
      }
      r := res;
    }
  }
}
