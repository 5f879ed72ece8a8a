// FBMutableFuture: a future whose state is set from outside, and +race:,
// which cancels every future that lost.

module MutableFutures {
  import opened Futures

  class MutableFuture<T> {
    var state: FutureState
    var result: Option<T>
    var error: Option<Error>

    /** The result is present exactly when Done, the error exactly when Failed. */
    ghost predicate Valid()
      reads this
    {
      && (result.Some? <==> state == StateDone)
      && (error.Some? <==> state == StateFailed)
    }

    /** The future this object currently is. */
    function View(): (f: Future<T>)
      reads this
      requires Valid()
      ensures f.State() == state
    {
      match state
      case StateRunning => Pending
      case StateDone => Resolved(Done(result.value))
      case StateFailed => Resolved(Failed(error.value))
      case StateCancelled => Resolved(Cancelled)
    }

    /** +future: a new future that stays Running until it is resolved. */
    constructor ()
      ensures Valid() && View() == Pending
    {
      state, result, error := StateRunning, None, None;
    }

    function HasCompleted(): (b: bool)
      reads this
      requires Valid()
      ensures b <==> View().HasCompleted()
    {
      state != StateRunning
    }

    /** -resolveWithResult: Done with the result, unless already completed. */
    method ResolveWithResult(r: T)
      requires Valid()
      modifies this
      ensures Valid() && View() == Complete(old(View()), Done(r))
    {
      if state == StateRunning {
        state, result := StateDone, Some(r);
      }
    }

    /** -resolveWithError: Failed with the error, unless already completed. */
    method ResolveWithError(e: Error)
      requires Valid()
      modifies this
      ensures Valid() && View() == Complete(old(View()), Failed(e))
    {
      if state == StateRunning {
        state, error := StateFailed, Some(e);
      }
    }

    /** -cancel: a running future becomes Cancelled; a completed one is untouched. */
    method Cancel()
      requires Valid()
      modifies this
      ensures Valid() && View() == Complete(old(View()), Cancelled)
    {
      if state == StateRunning {
        state := StateCancelled;
      }
    }

    /**
     * -resolveFromFuture: takes over the other future's outcome once that one
     * completes (a cancelled source cancels the receiver); while the other is
     * still running nothing happens yet.
     */
    method ResolveFromFuture(other: Future<T>)
      requires Valid()
      modifies this
      ensures Valid()
      ensures other.Pending? ==> View() == old(View())
      ensures other.Resolved? ==> View() == Complete(old(View()), other.outcome)
    {
      if other.Resolved? {
        match other.outcome
        case Done(v) => ResolveWithResult(v);
        case Failed(e) => ResolveWithError(e);
        case Cancelled => Cancel();
      }
    }
  }

  /** The objects of a sequence of futures. */
  function Objects<T>(futures: seq<MutableFuture<T>>): set<object>
  {
    set i | 0 <= i < |futures| :: futures[i]
  }

  /**
   * +race: resolves with the outcome of the future that completed first, and
   * cancels all the futures. Which one completed first is decided by the
   * scheduler and is given as `first`.
   */
  method Race<T>(futures: seq<MutableFuture<T>>, first: nat) returns (r: Outcome<T>)
    requires first < |futures|
    requires forall i :: 0 <= i < |futures| ==> futures[i].Valid()
    requires futures[first].HasCompleted()
    modifies Objects(futures)
    ensures r == old(futures[first].View()).outcome
    ensures forall i :: 0 <= i < |futures| ==>
      futures[i].Valid() && futures[i].View() == Complete(old(futures[i].View()), Cancelled)
  {
    r := futures[first].View().outcome;
    var i := 0;
    while i < |futures|
      invariant 0 <= i <= |futures|
      invariant forall j :: 0 <= j < |futures| ==> futures[j].Valid()
      invariant forall j :: 0 <= j < i ==>
        futures[j].View() == Complete(old(futures[j].View()), Cancelled)
      invariant forall j :: i <= j < |futures| ==>
        futures[j].View() == old(futures[j].View()) ||
        futures[j].View() == Complete(old(futures[j].View()), Cancelled)
    {
      futures[i].Cancel();
      i := i + 1;
    }
  }
}
