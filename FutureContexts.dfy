// FBFutureContext: a future together with a stack of teardown blocks that
// unwinds, last pushed first, once the future derived by pop has resolved.

module FutureContexts {
  import opened Futures

  /** A registered teardown block (named by `action`) with the value it tears down. */
  datatype Teardown<T> = Teardown(action: nat, value: T)

  /** One teardown block running: its value and the state the popped future ended in. */
  datatype TeardownCall<T> = TeardownCall(action: nat, value: T, state: FutureState)

  /** The teardown calls a stack makes for a popped future that ended in `s`. */
  function Unwind<T>(stack: seq<Teardown<T>>, s: FutureState): (calls: seq<TeardownCall<T>>)
    ensures |calls| == |stack|
    ensures forall k :: 0 <= k < |calls| ==>
      calls[k] == TeardownCall(stack[|stack| - 1 - k].action, stack[|stack| - 1 - k].value, s)
  {
    if stack == [] then []
    else
      var top := stack[|stack| - 1];
      [TeardownCall(top.action, top.value, s)] + Unwind(stack[..|stack| - 1], s)
  }

  /** The teardowns of a lower stack run after every teardown pushed above it. */
  lemma {:induction false} UnwindStacked<T>(below: seq<Teardown<T>>, above: seq<Teardown<T>>, s: FutureState)
    ensures Unwind(below + above, s) == Unwind(above, s) + Unwind(below, s)
  {
    var whole, parts := Unwind(below + above, s), Unwind(above, s) + Unwind(below, s);
    assert |whole| == |parts|;
    forall k | 0 <= k < |whole| ensures whole[k] == parts[k] {
      if k < |above| {
        assert (below + above)[|below + above| - 1 - k] == above[|above| - 1 - k];
      } else {
        assert (below + above)[|below + above| - 1 - k] == below[|below| - 1 - (k - |above|)];
      }
    }
  }

  class FutureContext<T> {
    const future: Outcome<T>
    var teardowns: seq<Teardown<T>>

    /** +futureContextWithFuture: no teardown. */
    constructor WithFuture(f: Outcome<T>)
      ensures future == f && teardowns == []
    {
      future, teardowns := f, [];
    }

    /** +futureContextWithResult: */
    constructor WithResult(r: T)
      ensures future == Done(r) && teardowns == []
    {
      future, teardowns := Done(r), [];
    }

    /** +futureContextWithError: */
    constructor WithError(e: Error)
      ensures future == Failed(e) && teardowns == []
    {
      future, teardowns := Failed(e), [];
    }

    /**
     * -[FBFuture contextualTeardown:]: the teardown is registered only if the
     * future resolved with a value, since that value is what it tears down.
     */
    constructor ContextualTeardown(f: Outcome<T>, action: nat)
      ensures future == f
      ensures f.Done? ==> teardowns == [Teardown(action, f.value)]
      ensures !f.Done? ==> teardowns == []
    {
      future := f;
      teardowns := if f.Done? then [Teardown(action, f.value)] else [];
    }

    constructor Stacked(f: Outcome<T>, stack: seq<Teardown<T>>)
      ensures future == f && teardowns == stack
    {
      future, teardowns := f, stack;
    }

    /** -[FBFutureContext contextualTeardown:]: adds a teardown on top of the stack. */
    method AddTeardown(action: nat)
      modifies this
      ensures future.Done? ==> teardowns == old(teardowns) + [Teardown(action, future.value)]
      ensures !future.Done? ==> teardowns == old(teardowns)
    {
      if future.Done? {
        teardowns := teardowns + [Teardown(action, future.value)];
      }
    }

    /** -pend: fmaps the future and keeps the same teardowns alive. */
    method Pend(fmap: T -> Outcome<T>) returns (c: FutureContext<T>)
      ensures fresh(c)
      ensures c.future == FMap(future, fmap) && c.teardowns == teardowns
    {
      c := new FutureContext.Stacked(FMap(future, fmap), teardowns);
    }

    /**
     * -push: on a result, the block's context is stacked on top of this one;
     * otherwise the failure is kept and nothing is stacked.
     */
    method Push(fmap: T -> FutureContext<T>) returns (c: FutureContext<T>)
      requires future.Done? ==> allocated(fmap(future.value))  // the block hands back an existing context
      ensures fresh(c)
      ensures future.Done? ==> c.future == fmap(future.value).future &&
                               c.teardowns == teardowns + fmap(future.value).teardowns
      ensures !future.Done? ==> c.future == future && c.teardowns == teardowns
    {
      if future.Done? {
        var next := fmap(future.value);
        c := new FutureContext.Stacked(next.future, teardowns + next.teardowns);
      } else {
        c := new FutureContext.Stacked(future, teardowns);
      }
    }

    /**
     * -pop: the future derived by fmapping the context's value, and the
     * teardown calls made after it resolves: every registered teardown, last
     * pushed first, each told the final state of that future.
     */
    method Pop<U>(pop: T -> Outcome<U>) returns (r: Outcome<U>, calls: seq<TeardownCall<T>>)
      ensures r == FMap(future, pop)
      ensures |calls| == |teardowns|
      ensures forall k :: 0 <= k < |calls| ==> calls[k].state == r.State() && calls[k].state != StateRunning
      ensures calls == Unwind(teardowns, r.State())
    {
      r := FMap(future, pop);
      var s := r.State();
      calls := [];
      var i := |teardowns|;
      while i > 0
        invariant 0 <= i <= |teardowns|
        invariant |calls| == |teardowns| - i
        invariant forall k :: 0 <= k < |calls| ==>
          calls[k] == TeardownCall(teardowns[|teardowns| - 1 - k].action, teardowns[|teardowns| - 1 - k].value, s)
      {
        i := i - 1;
        calls := calls + [TeardownCall(teardowns[i].action, teardowns[i].value, s)];
      }
    }
  }
}
