/**
 * The provider façade's own state: the lifecycle fields `Start` and `Close`
 * update, and, as ghost state, the staging files on disk and the deals
 * handed to the event loop. Each method is proved against the step
 * function of the `Lifecycle` or `Execution` module.
 */
module StorageMarket {
  import opened Wrappers
  import opened Errors
  import opened Acceptance
  import opened Execution
  import opened Lifecycle

  class Provider {
    /** `p.Address`, the provider's on-chain address. */
    const address: string

    var hasContext: bool   // p.ctx and p.cancel are set
    var cancelled: bool    // p.cancel has been called on p.ctx
    var waitGroup: nat     // p.wg
    var closeDone: bool    // p.closeSync has fired
    ghost var cancelCalls: nat
    ghost var loopsLaunched: nat
    ghost var trackersLaunched: nat

    /** Staging files currently on disk that `ExecuteDeal` created. */
    ghost var stagingFiles: set<Path>
    /** The collaborator reports of every `ExecuteDeal` call so far, oldest first. */
    ghost var handled: seq<Collaborators>
    /** The deal states sent to the event loop, oldest first. */
    ghost var submitted: seq<ProviderDealState>

    ghost function State(): LifecycleState
      reads this
    {
      LifecycleState(hasContext, cancelled, waitGroup, closeDone, cancelCalls, loopsLaunched, trackersLaunched)
    }

    /**
     * Cancel-and-wait has run once exactly when the once has fired, and the
     * staging files on disk are exactly those of the calls that ended in
     * clean acceptance or in the rejection-log panic: no other path leaks a
     * file.
     */
    ghost predicate Valid()
      reads this
    {
      Inv(State()) && stagingFiles == KeptPaths(handled)
    }

    constructor (address: string)
      ensures Valid() && State() == Initial && this.address == address
      ensures stagingFiles == {} && handled == [] && submitted == []
    {
      this.address := address;
      hasContext, cancelled, waitGroup, closeDone := false, false, 0, false;
      cancelCalls, loopsLaunched, trackersLaunched := 0, 0, 0;
      stagingFiles, handled, submitted := {}, [], [];
    }

    /** `Start`, with the result of `db.CreateTables` as input. */
    method Start(tablesErr: Option<Error>) returns (err: Option<Error>)
      requires Valid()
      modifies this`hasContext, this`cancelled, this`waitGroup, this`loopsLaunched, this`trackersLaunched
      ensures Valid()
      ensures StartOutcome(State(), err) == StartStep(old(State()), tablesErr)
    {
      hasContext, cancelled := true, false;
      if tablesErr.Some? {
        return Some(Wrap("failed to init db: ", tablesErr.value));
      }
      waitGroup := waitGroup + 1;
      loopsLaunched := loopsLaunched + 1;
      trackersLaunched := trackersLaunched + 1;
      err := None;
    }

    /** `Close`: cancel-and-wait at most once; always returns nil. */
    method Close() returns (err: Option<Error>)
      requires Valid() && (hasContext || closeDone)
      modifies this`cancelled, this`waitGroup, this`closeDone, this`cancelCalls
      ensures Valid() && err.None?
      ensures CloseStep(old(State())) == Some(State())
    {
      if !closeDone {
        closeDone := true;
        cancelled := true;
        cancelCalls := cancelCalls + 1;
        // p.wg.Wait(): returns once every launched loop has called Done
        waitGroup := 0;
      }
      err := None;
    }

    /**
     * `ExecuteDeal`, with what its collaborators report as input. Returns
     * what `ExecuteDealResult` says, or reports the panic it says happens,
     * leaves the staging files `StagingAfter` says, and hands the event loop
     * the deal `Submission` says. While no event loop is running (before a
     * successful `Start`, after a failed one, or after `Close` has joined
     * the loop), nothing receives the request, so a staged call can only
     * fail with the context's error.
     */
    method ExecuteDeal(dp: ClientDealParams, c: Collaborators)
      returns (pi: Option<RejectionInfo>, err: Option<Error>, panicked: bool)
      requires Valid()
      requires c.createTemp.Success? ==> c.createTemp.value !in stagingFiles
      requires Staged(c) ==> hasContext
      // with no loop in the wait group nothing takes the request: only the context's Done case can fire
      requires Staged(c) && waitGroup == 0 ==> c.handshake.DoneBeforeSend?
      modifies this`stagingFiles, this`handled, this`submitted
      ensures Valid()
      ensures panicked <==> ExecuteDealResult(c).None?
      ensures !panicked ==> Some(ExecuteResult(pi, err)) == ExecuteDealResult(c)
      ensures panicked ==> pi.None? && err.None?
      ensures stagingFiles == StagingAfter(old(stagingFiles), c)
      ensures handled == old(handled) + [c]
      ensures Submission(dp, c).Some? ==> submitted == old(submitted) + [Submission(dp, c).value]
      ensures Submission(dp, c).None? ==> submitted == old(submitted)
      ensures waitGroup == 0 && Staged(c) ==>
                !panicked && pi.None? && err.Some? && Is(err.value, Context(c.handshake.ctxErr)) &&
                submitted == old(submitted)
    {
      handled := handled + [c];
      KeptPathsSnoc(old(handled), c);
      pi, err, panicked := None, None, false;

      var ds := NewDealState(dp);
      if c.validation.Some? {
        pi := Some(RejectionInfo(ValidationPrefix + Message(c.validation.value)));
        return;
      }

      if c.createTemp.Failure? {
        err := Some(Wrap("failed to create temp file: ", c.createTemp.error));
        return;
      }
      var path := c.createTemp.value;
      stagingFiles := stagingFiles + {path};
      if c.closeErr.Some? {
        stagingFiles := stagingFiles - {path};
        err := Some(Wrap("failed to close temp file: ", c.closeErr.value));
        return;
      }
      ds := ds.(inboundFilePath := path);

      if RequestTaken(c.handshake) {
        submitted := submitted + [ds];
      }
      var hr := CheckForDealAcceptance(c.handshake);
      var verdict := Verdict(hr);
      match verdict
      case None => panicked := true;
      case Some(r) => pi, err := r.pi, r.err;

      // the deferred cleanup, which also runs while panicking
      if pi.Some? || err.Some? {
        stagingFiles := stagingFiles - {ds.inboundFilePath};
      }
    }
  }
}
