// The value side of FBFuture: the four states, resolved outcomes, and the
// combinators that derive one future's outcome from another's.

module Futures {

  datatype Option<T> = None | Some(value: T)

  /** The errors a future can fail with (the model's stand-in for NSError). */
  datatype Error =
    | AlreadyAttached             // a stream container was attached twice
    | SourceAlreadyClosed         // a write reached an input whose end was already signalled
    | AlreadyReading              // startReading on a file bridge that had already started
    | NotReading                  // stopReading on a file bridge that is not reading
    | UnsupportedFormat(path: string)  // no extraction command fits the archive's header
    | ToolFailure(exitStatus: int)     // an external tool exited unsuccessfully
    | Described(message: string)       // any other error, e.g. one a caller's block returns

  /** FBFutureState. */
  datatype FutureState = StateRunning | StateDone | StateFailed | StateCancelled

  /** The NSUInteger value of each FBFutureState constant. */
  function StateCode(s: FutureState): (code: nat)
    ensures 1 <= code <= 4
    ensures code == 1 <==> s == StateRunning
  {
    match s
    case StateRunning => 1
    case StateDone => 2
    case StateFailed => 3
    case StateCancelled => 4
  }

  /** The declared constants: Running 1, Done 2, Failed 3, Cancelled 4, no two alike. */
  lemma StateCodesAsDeclared(a: FutureState, b: FutureState)
    ensures StateCode(StateDone) == 2 && StateCode(StateFailed) == 3 && StateCode(StateCancelled) == 4
    ensures StateCode(a) == StateCode(b) ==> a == b
  {
  }

  /** How a future ended: with a result, with an error, or cancelled. */
  datatype Outcome<T> = Done(value: T) | Failed(error: Error) | Cancelled
  {
    /** The final state a future with this outcome reports. */
    function State(): (s: FutureState)
      ensures s != StateRunning
      ensures s == StateDone <==> Done?
      ensures s == StateFailed <==> Failed?
    {
      match this
      case Done(_) => StateDone
      case Failed(_) => StateFailed
      case Cancelled => StateCancelled
    }
  }

  /** A future as observed at one moment: still running, or resolved for good. */
  datatype Future<T> = Pending | Resolved(outcome: Outcome<T>)
  {
    /** The state property: Running while pending, then the outcome's final state. */
    function State(): (s: FutureState)
      ensures s == StateRunning <==> Pending?
      ensures Resolved? ==> s == outcome.State()
    {
      if Pending? then StateRunning else outcome.State()
    }

    /** hasCompleted: YES exactly when the future has left the Running state. */
    predicate HasCompleted(): (b: bool)
      ensures b <==> State() != StateRunning
    {
      Resolved?
    }

    /** The result property: present exactly in the Done state. */
    function Result(): (r: Option<T>)
      ensures r.Some? <==> State() == StateDone
      ensures r.Some? ==> Resolved? && outcome == Done(r.value)
    {
      if Resolved? && outcome.Done? then Some(outcome.value) else None
    }

    /** The error property: present exactly in the Failed state. */
    function Error(): (e: Option<Error>)
      ensures e.Some? <==> State() == StateFailed
      ensures e.Some? ==> Resolved? && outcome == Failed(e.value)
    {
      if Resolved? && outcome.Failed? then Some(outcome.error) else None
    }
  }

  /** +futureWithResult: */
  function FutureWithResult<T>(result: T): (f: Future<T>)
    ensures f.State() == StateDone && f.Result() == Some(result) && f.Error() == None
  {
    Resolved(Done(result))
  }

  /** +futureWithError: */
  function FutureWithError<T>(error: Error): (f: Future<T>)
    ensures f.State() == StateFailed && f.Error() == Some(error) && f.Result() == None
  {
    Resolved(Failed(error))
  }

  /**
   * One attempt to resolve a future: a running future takes the outcome, a
   * completed one keeps the outcome it already has.
   */
  function Complete<T>(f: Future<T>, o: Outcome<T>): (g: Future<T>)
    ensures g.HasCompleted()
    ensures f.HasCompleted() ==> g == f
  {
    if f.Pending? then Resolved(o) else f
  }

  /** A sequence of resolution attempts, made in order. */
  function CompleteAll<T>(f: Future<T>, attempts: seq<Outcome<T>>): Future<T>
    decreases |attempts|
  {
    if attempts == [] then f else CompleteAll(Complete(f, attempts[0]), attempts[1..])
  }

  /** Once completed, no later resolution attempt changes a future. */
  lemma {:induction false} CompletedIsFinal<T>(f: Future<T>, attempts: seq<Outcome<T>>)
    requires f.HasCompleted()
    ensures CompleteAll(f, attempts) == f
  {
    if attempts != [] {
      CompletedIsFinal(Complete(f, attempts[0]), attempts[1..]);
    }
  }

  /** A running future ends with the outcome of the first resolution attempt. */
  lemma {:induction false} FirstResolutionWins<T>(attempts: seq<Outcome<T>>)
    requires attempts != []
    ensures CompleteAll(Pending, attempts) == Resolved(attempts[0])
  {
    CompletedIsFinal(Resolved(attempts[0]), attempts[1..]);
  }

  // ---------------------------------------------------------------------
  // Combinators: each maps the receiver's outcome to the derived future's.
  // ---------------------------------------------------------------------

  /** -map: the block is applied to a result; errors and cancellation pass through. */
  function Map<T, U>(o: Outcome<T>, f: T -> U): (r: Outcome<U>)
    ensures r.State() == o.State()
    ensures o.Done? ==> r == Done(f(o.value))
    ensures o.Failed? ==> r == Failed(o.error)
  {
    match o
    case Done(v) => Done(f(v))
    case Failed(e) => Failed(e)
    case Cancelled => Cancelled
  }

  /** -fmap: a result is replaced by the future the block returns. */
  function FMap<T, U>(o: Outcome<T>, f: T -> Outcome<U>): (r: Outcome<U>)
    ensures o.Done? ==> r == f(o.value)
    ensures o.Failed? ==> r == Failed(o.error)
    ensures o.Cancelled? ==> r.Cancelled?
  {
    match o
    case Done(v) => f(v)
    case Failed(e) => Failed(e)
    case Cancelled => Cancelled
  }

  /** -chain: the block sees every non-cancelled resolution; cancellation passes through. */
  function Chain<T, U>(o: Outcome<T>, f: Outcome<T> -> Outcome<U>): (r: Outcome<U>)
    ensures !o.Cancelled? ==> r == f(o)
    ensures o.Cancelled? ==> r.Cancelled?
  {
    if o.Cancelled? then Cancelled else f(o)
  }

  /** -handleError: the block sees an error; results and cancellation pass through. */
  function HandleError<T>(o: Outcome<T>, handler: Error -> Outcome<T>): (r: Outcome<T>)
    ensures o.Failed? ==> r == handler(o.error)
    ensures !o.Failed? ==> r == o
  {
    if o.Failed? then handler(o.error) else o
  }

  /** -mapReplace: a result is replaced by a fixed value. */
  function MapReplace<T, U>(o: Outcome<T>, replacement: U): (r: Outcome<U>)
  {
    Map(o, (_: T) => replacement)
  }

  /** -fmapReplace: a result is replaced by a second future's outcome. */
  function FMapReplace<T, U>(o: Outcome<T>, replacement: Outcome<U>): (r: Outcome<U>)
  {
    FMap(o, (_: T) => replacement)
  }

  /** -fallback: an error is replaced by a fixed result. */
  function Fallback<T>(o: Outcome<T>, replacement: T): (r: Outcome<T>)
  {
    HandleError(o, (_: Error) => Done(replacement))
  }

  lemma MapReplaceReplacesOnlyResults<T, U>(o: Outcome<T>, x: U)
    ensures o.Done? ==> MapReplace(o, x) == Done(x)
    ensures o.Failed? ==> MapReplace(o, x) == Failed(o.error)
    ensures o.Cancelled? ==> MapReplace(o, x).Cancelled?
  {
  }

  lemma FMapReplaceWaitsForSuccess<T, U>(o: Outcome<T>, next: Outcome<U>)
    ensures o.Done? ==> FMapReplace(o, next) == next
    ensures !o.Done? ==> FMapReplace(o, next).State() == o.State()
  {
  }

  lemma FallbackShieldsFailure<T>(o: Outcome<T>, x: T)
    ensures o.Failed? ==> Fallback(o, x) == Done(x)
    ensures !o.Failed? ==> Fallback(o, x) == o
    ensures !Fallback(o, x).Failed?
  {
  }

  /** map is fmap of a future that is already Done. */
  lemma MapIsFMapOfResult<T, U>(o: Outcome<T>, f: T -> U)
    ensures Map(o, f) == FMap(o, (v: T) => Done(f(v)))
  {
  }

  /** Mapping twice is mapping once with the composed block. */
  lemma MapComposes<T, U, V>(o: Outcome<T>, f: T -> U, g: U -> V)
    ensures Map(Map(o, f), g) == Map(o, (v: T) => g(f(v)))
  {
  }

  /** Flat-mapping twice is flat-mapping once with the chained block. */
  lemma FMapAssociates<T, U, V>(o: Outcome<T>, f: T -> Outcome<U>, g: U -> Outcome<V>)
    ensures FMap(FMap(o, f), g) == FMap(o, (v: T) => FMap(f(v), g))
  {
  }

  /** fmap with a block that handles every non-cancelled outcome agrees with chain. */
  lemma FMapIsChainOnResults<T, U>(o: Outcome<T>, f: T -> Outcome<U>)
    ensures FMap(o, f) == Chain(o, (p: Outcome<T>) => FMap(p, f))
  {
  }

  // ---------------------------------------------------------------------
  // +futureWithFutures:
  // ---------------------------------------------------------------------

  /**
   * The order in which the composed futures complete: every index appears,
   * each exactly once. Scheduling is not modelled, so it is a parameter.
   */
  ghost predicate IsCompletionOrder(order: seq<nat>, n: nat)
  {
    && |order| == n
    && (forall k :: 0 <= k < |order| ==> order[k] < n)
    && (forall i :: 0 <= i < n ==> i in order)
  }

  /** The position, in completion order, of the first future that did not end Done. */
  function FirstUnsuccessful<T>(outcomes: seq<Outcome<T>>, order: seq<nat>): (k: Option<nat>)
    requires forall j :: 0 <= j < |order| ==> order[j] < |outcomes|
    ensures k.Some? ==> k.value < |order| && !outcomes[order[k.value]].Done?
    ensures k.Some? ==> forall j :: 0 <= j < k.value ==> outcomes[order[j]].Done?
    ensures k.None? ==> forall j :: 0 <= j < |order| ==> outcomes[order[j]].Done?
  {
    if order == [] then None
    else if !outcomes[order[0]].Done? then Some(0)
    else match FirstUnsuccessful(outcomes, order[1..])
      case None => None
      case Some(k) => Some(k + 1)
  }

  function Results<T>(outcomes: seq<Outcome<T>>): seq<T>
    requires forall i :: 0 <= i < |outcomes| ==> outcomes[i].Done?
  {
    seq(|outcomes|, i requires 0 <= i < |outcomes| => outcomes[i].value)
  }

  /**
   * The composite future: Done with every result, in the order the futures
   * were given, once all are Done; otherwise the outcome of the first future,
   * in completion order, that failed or was cancelled.
   */
  function FutureWithFutures<T>(outcomes: seq<Outcome<T>>, order: seq<nat>): (r: Outcome<seq<T>>)
    requires IsCompletionOrder(order, |outcomes|)
    ensures r.Done? <==> forall i :: 0 <= i < |outcomes| ==> outcomes[i].Done?
    ensures r.Done? ==> |r.value| == |outcomes|
    ensures r.Done? ==> forall i :: 0 <= i < |outcomes| ==> outcomes[i] == Done(r.value[i])
    ensures r.Failed? ==> exists i :: 0 <= i < |outcomes| && outcomes[i] == Failed(r.error)
    ensures r.Cancelled? ==> exists i :: 0 <= i < |outcomes| && outcomes[i].Cancelled?
  {
    match FirstUnsuccessful(outcomes, order)
    case None =>
      assert forall i :: 0 <= i < |outcomes| ==> outcomes[i].Done? by {
        forall i | 0 <= i < |outcomes| ensures outcomes[i].Done? {
          assert i in order;
          var k :| 0 <= k < |order| && order[k] == i;
        }
      }
      Done(Results(outcomes))
    case Some(k) =>
      match outcomes[order[k]]
      case Failed(e) => Failed(e)
      case _ => Cancelled
  }

  /**
   * The first future, in completion order, that did not succeed decides the
   * composite: it fails with that future's error, or is cancelled.
   */
  lemma {:induction false} FirstUnsuccessfulDecides<T>(outcomes: seq<Outcome<T>>, order: seq<nat>, k: nat)
    requires IsCompletionOrder(order, |outcomes|)
    requires k < |order| && !outcomes[order[k]].Done?
    requires forall j :: 0 <= j < k ==> outcomes[order[j]].Done?
    ensures FutureWithFutures(outcomes, order) ==
      if outcomes[order[k]].Failed? then Failed(outcomes[order[k]].error) else Cancelled
  {
    FirstUnsuccessfulIs(outcomes, order, k);
  }

  lemma {:induction false} FirstUnsuccessfulIs<T>(outcomes: seq<Outcome<T>>, order: seq<nat>, k: nat)
    requires forall j :: 0 <= j < |order| ==> order[j] < |outcomes|
    requires k < |order| && !outcomes[order[k]].Done?
    requires forall j :: 0 <= j < k ==> outcomes[order[j]].Done?
    ensures FirstUnsuccessful(outcomes, order) == Some(k)
  {
    if k > 0 {
      FirstUnsuccessfulIs(outcomes, order[1..], k - 1);
    }
  }

  /** When every future succeeds, the order they completed in does not matter. */
  lemma FutureWithFuturesIgnoresCompletionOrder<T>(outcomes: seq<Outcome<T>>, order1: seq<nat>, order2: seq<nat>)
    requires IsCompletionOrder(order1, |outcomes|) && IsCompletionOrder(order2, |outcomes|)
    requires forall i :: 0 <= i < |outcomes| ==> outcomes[i].Done?
    ensures FutureWithFutures(outcomes, order1) == FutureWithFutures(outcomes, order2)
  {
    var r1, r2 := FutureWithFutures(outcomes, order1), FutureWithFutures(outcomes, order2);
    assert r1.value == r2.value by {
      forall i | 0 <= i < |outcomes| ensures r1.value[i] == r2.value[i] {
        assert outcomes[i] == Done(r1.value[i]) == Done(r2.value[i]);
      }
    }
  }
}
