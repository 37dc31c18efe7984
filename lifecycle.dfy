/**
 * `Provider.Start` and `Provider.Close` as steps on a record of flags and
 * counters: whether `p.ctx`/`p.cancel` are set, whether `p.cancel` was
 * called, the `p.wg` counter, whether `p.closeSync` has fired, and how many
 * event loops and transfer trackers were launched.
 */
module Lifecycle {
  import opened Wrappers
  import opened Errors

  datatype LifecycleState = LifecycleState(
    hasContext: bool,       // Start assigned p.ctx and p.cancel
    cancelled: bool,        // p.cancel was called on the current context
    waitGroup: nat,         // p.wg: launched event loops not yet joined
    closeDone: bool,        // p.closeSync has run its function
    cancelCalls: nat,       // times Close ran cancel-and-wait
    loopsLaunched: nat,     // `go p.loop()`
    trackersLaunched: nat)  // `go p.transfers.start(p.ctx)`, never added to p.wg

  /** The provider as `NewProvider` returns it: nothing started. */
  const Initial := LifecycleState(false, false, 0, false, 0, 0, 0)

  /**
   * What every reachable state keeps: cancel-and-wait has run once exactly
   * when the once has fired, and a cancelled context means that `Close` ran
   * and no loop is left in the wait group.
   */
  predicate Inv(s: LifecycleState)
  {
    && (s.closeDone ==> s.hasContext)
    && s.cancelCalls == (if s.closeDone then 1 else 0)
    && (s.cancelled ==> s.closeDone && s.waitGroup == 0)
  }

  datatype StartOutcome = StartOutcome(state: LifecycleState, err: Option<Error>)

  /**
   * `Start`: a fresh cancellable context is always installed; the event loop
   * and the tracker are launched only when table creation succeeds, and
   * otherwise the wrapped table error is returned. The once is never reset.
   */
  function StartStep(s: LifecycleState, tablesErr: Option<Error>): (r: StartOutcome)
    ensures r.state.hasContext && !r.state.cancelled
    ensures r.err.None? <==> tablesErr.None?
    ensures tablesErr.Some? ==>
              Is(r.err.value, tablesErr.value) &&
              r.state.waitGroup == s.waitGroup && r.state.loopsLaunched == s.loopsLaunched &&
              r.state.trackersLaunched == s.trackersLaunched
    ensures tablesErr.None? ==>
              r.state.waitGroup == s.waitGroup + 1 && r.state.loopsLaunched == s.loopsLaunched + 1 &&
              r.state.trackersLaunched == s.trackersLaunched + 1
    ensures r.state.closeDone == s.closeDone && r.state.cancelCalls == s.cancelCalls
    ensures Inv(s) ==> Inv(r.state)
  {
    var withContext := s.(hasContext := true, cancelled := false);
    match tablesErr
    case Some(e) => StartOutcome(withContext, Some(Wrap("failed to init db: ", e)))
    case None =>
      StartOutcome(withContext.(waitGroup := s.waitGroup + 1,
                                loopsLaunched := s.loopsLaunched + 1,
                                trackersLaunched := s.trackersLaunched + 1), None)
  }

  /**
   * `Close`: the first call cancels the context and waits until every
   * launched loop has left the wait group; later calls do nothing. `None`
   * is the panic of a first call made before `Start`, when `p.cancel` is nil.
   */
  function CloseStep(s: LifecycleState): (r: Option<LifecycleState>)
    ensures r.None? <==> !s.closeDone && !s.hasContext
    ensures s.closeDone ==> r == Some(s)
    ensures !s.closeDone && r.Some? ==>
              r.value.closeDone && r.value.cancelled && r.value.waitGroup == 0 &&
              r.value.hasContext == s.hasContext && r.value.cancelCalls == s.cancelCalls + 1 &&
              r.value.loopsLaunched == s.loopsLaunched && r.value.trackersLaunched == s.trackersLaunched
    ensures Inv(s) && r.Some? ==> Inv(r.value) && r.value.cancelCalls == 1
  {
    if s.closeDone then Some(s)
    else if !s.hasContext then None
    else Some(s.(closeDone := true, cancelled := true, waitGroup := 0, cancelCalls := s.cancelCalls + 1))
  }

  datatype LifecycleOp = Start(tablesErr: Option<Error>) | Close

  /** The state after a sequence of calls, or `None` if one of them panicked. */
  function Run(s: LifecycleState, ops: seq<LifecycleOp>): Option<LifecycleState>
    decreases |ops|
  {
    if |ops| == 0 then Some(s)
    else
      match ops[0]
      case Start(e) => Run(StartStep(s, e).state, ops[1..])
      case Close =>
        match CloseStep(s)
        case None => None
        case Some(s') => Run(s', ops[1..])
  }

  /** Every call sequence keeps `Inv`. */
  lemma {:induction false} RunKeepsInv(s: LifecycleState, ops: seq<LifecycleOp>)
    requires Inv(s)
    ensures Run(s, ops).Some? ==> Inv(Run(s, ops).value)
    decreases |ops|
  {
    if |ops| > 0 {
      match ops[0]
      case Start(e) => RunKeepsInv(StartStep(s, e).state, ops[1..]);
      case Close =>
        if CloseStep(s).Some? {
          RunKeepsInv(CloseStep(s).value, ops[1..]);
        }
    }
  }

  /**
   * However many times `Start` and `Close` are called, in any order,
   * cancel-and-wait runs at most once, and it has run exactly when some
   * `Close` has completed.
   */
  lemma {:induction false} CancelRunsAtMostOnce(ops: seq<LifecycleOp>)
    ensures Run(Initial, ops).Some? ==>
              Run(Initial, ops).value.cancelCalls <= 1 &&
              (Run(Initial, ops).value.cancelCalls == 1 <==> Run(Initial, ops).value.closeDone)
  {
    RunKeepsInv(Initial, ops);
  }

  /**
   * A `Start` after the first `Close` launches a loop that no later `Close`
   * cancels or joins: the once has already fired.
   */
  lemma RestartAfterCloseIsNeverJoined(s: LifecycleState)
    requires Inv(s) && s.closeDone
    ensures Run(s, [Start(None), Close]).Some?
    ensures Run(s, [Start(None), Close]).value.waitGroup == s.waitGroup + 1
    ensures !Run(s, [Start(None), Close]).value.cancelled
  {
  }
}
