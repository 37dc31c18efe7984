/**
 * The decisions `Provider.ExecuteDeal` takes: validate, create and close the
 * staging file, hand the deal to the event loop, classify the reply, and
 * remove the staging file on every exit that returns rejection info or an
 * error. Everything the façade calls is an input (`Collaborators`).
 */
module Execution {
  import opened Wrappers
  import opened Errors
  import opened Acceptance

  type Uuid = string
  type Path = string

  /** The client's proposal as it arrives (`types.ClientDealParams`). */
  datatype ClientDealParams = ClientDealParams(
    dealUuid: Uuid,
    clientDealProposal: string,
    minerPeerId: string,
    clientPeerId: string,
    dealDataRoot: string,
    transfer: string)

  /** The provider's record of one deal (`types.ProviderDealState`). */
  datatype ProviderDealState = ProviderDealState(
    dealUuid: Uuid,
    clientDealProposal: string,
    selfPeerId: string,
    clientPeerId: string,
    dealDataRoot: string,
    transfer: string,
    inboundFilePath: Path)

  /** What the collaborators of one `ExecuteDeal` call report. */
  datatype Collaborators = Collaborators(
    validation: Option<Error>,        // validateDealProposal
    createTemp: Result<Path, Error>,  // fs.CreateTemp, giving the file's OS path
    closeErr: Option<Error>,          // tmp.Close
    handshake: Handshake)             // the event loop and the provider context

  /** The two return values `(pi, err)` of `ExecuteDeal`. */
  datatype ExecuteResult = ExecuteResult(pi: Option<RejectionInfo>, err: Option<Error>)

  const ValidationPrefix := "failed validation: "

  /** The deal state built from the proposal, before a staging file exists. */
  function NewDealState(dp: ClientDealParams): (ds: ProviderDealState)
    ensures ds.dealUuid == dp.dealUuid && ds.clientDealProposal == dp.clientDealProposal
    ensures ds.selfPeerId == dp.minerPeerId && ds.clientPeerId == dp.clientPeerId
    ensures ds.dealDataRoot == dp.dealDataRoot && ds.transfer == dp.transfer
    ensures ds.inboundFilePath == ""
  {
    ProviderDealState(dp.dealUuid, dp.clientDealProposal, dp.minerPeerId, dp.clientPeerId,
                      dp.dealDataRoot, dp.transfer, "")
  }

  /** The call got past validation, file creation and file close, so `InboundFilePath` is set. */
  predicate Staged(c: Collaborators)
  {
    c.validation.None? && c.createTemp.Success? && c.closeErr.None?
  }

  /** The clean-acceptance return `(nil, nil)`. */
  predicate IsCleanAccept(r: ExecuteResult)
  {
    r.pi.None? && r.err.None?
  }

  /**
   * The deferred cleanup finds both named results nil: after a clean
   * acceptance, or during a panic, which leaves them unassigned.
   */
  predicate CleanupKeepsFile(r: Option<ExecuteResult>)
  {
    r.None? || IsCleanAccept(r.value)
  }

  /**
   * The classification after the handshake: a handshake error, then the
   * reply's error (checked before its accepted flag), then a non-accepted
   * reply, then acceptance. `None` is the panic of the rejection log line,
   * which reads `resp.ri.Reason` before returning, on a non-accepted reply
   * that carries no rejection info.
   */
  function Verdict(hr: HandshakeResult): (r: Option<ExecuteResult>)
    ensures r.Some? ==> !(r.value.pi.Some? && r.value.err.Some?)
    ensures hr.err.Some? ==> r.Some? && r.value.pi.None? && r.value.err.Some? && Is(r.value.err.value, hr.err.value)
    ensures hr.err.None? && hr.resp.err.Some? ==>
              r.Some? && r.value.pi.None? && r.value.err.Some? && Is(r.value.err.value, hr.resp.err.value)
    ensures hr.err.None? && hr.resp.err.None? && !hr.resp.accepted && hr.resp.ri.Some? ==>
              r == Some(ExecuteResult(hr.resp.ri, None))
    ensures r.None? <==> hr.err.None? && hr.resp.err.None? && !hr.resp.accepted && hr.resp.ri.None?
    ensures r.Some? && IsCleanAccept(r.value) <==> hr.err.None? && hr.resp.err.None? && hr.resp.accepted
  {
    if hr.err.Some? then
      Some(ExecuteResult(None, Some(Wrap("failed to send deal for acceptance: ", hr.err.value))))
    else if hr.resp.err.Some? then
      Some(ExecuteResult(None, Some(Wrap("failed to accept deal: ", hr.resp.err.value))))
    else if !hr.resp.accepted then
      if hr.resp.ri.None? then None
      else Some(ExecuteResult(hr.resp.ri, None))
    else
      Some(ExecuteResult(None, None))
  }

  /**
   * What `ExecuteDeal` returns, or `None` when it panics. Rejection info and
   * error are never both set; a validation failure is a rejection whose
   * reason starts with "failed validation: "; file-creation and file-close
   * failures, and the context ending during the handshake, are errors that
   * still match their cause. The call returns `(nil, nil)` exactly when the
   * file was staged and the loop replied, without error, that it accepted;
   * it panics exactly when the loop replied, without error, that it did not
   * accept but gave no rejection info.
   */
  function ExecuteDealResult(c: Collaborators): (r: Option<ExecuteResult>)
    ensures r.Some? ==> !(r.value.pi.Some? && r.value.err.Some?)
    ensures c.validation.Some? ==>
              r.Some? && r.value.err.None? && r.value.pi.Some? &&
              r.value.pi.value.reason == ValidationPrefix + Message(c.validation.value)
    ensures c.validation.None? && c.createTemp.Failure? ==>
              r.Some? && r.value.pi.None? && r.value.err.Some? && Is(r.value.err.value, c.createTemp.error)
    ensures c.validation.None? && c.createTemp.Success? && c.closeErr.Some? ==>
              r.Some? && r.value.pi.None? && r.value.err.Some? && Is(r.value.err.value, c.closeErr.value)
    ensures Staged(c) && !c.handshake.Replied? ==>
              r.Some? && r.value.pi.None? && r.value.err.Some? && Is(r.value.err.value, Context(c.handshake.ctxErr))
    ensures r.Some? && IsCleanAccept(r.value) <==>
              Staged(c) && c.handshake.Replied? && c.handshake.resp.err.None? && c.handshake.resp.accepted
    ensures r.None? <==>
              Staged(c) && c.handshake.Replied? && c.handshake.resp.err.None? &&
              !c.handshake.resp.accepted && c.handshake.resp.ri.None?
    ensures Staged(c) ==> r == Verdict(CheckForDealAcceptance(c.handshake))
  {
    if c.validation.Some? then
      Some(ExecuteResult(Some(RejectionInfo(ValidationPrefix + Message(c.validation.value))), None))
    else if c.createTemp.Failure? then
      Some(ExecuteResult(None, Some(Wrap("failed to create temp file: ", c.createTemp.error))))
    else if c.closeErr.Some? then
      Some(ExecuteResult(None, Some(Wrap("failed to close temp file: ", c.closeErr.value))))
    else
      Verdict(CheckForDealAcceptance(c.handshake))
  }

  /**
   * A non-accepted reply without rejection info makes `ExecuteDeal` panic,
   * and the deferred cleanup, finding both results nil, leaves the staging
   * file on disk.
   */
  lemma SilentRejectionPanicsAndKeepsFile(files: set<Path>, path: Path)
    requires path !in files
    ensures var c := Collaborators(None, Success(path), None, Replied(AcceptDealResp(false, None, None)));
            ExecuteDealResult(c).None? && StagingAfter(files, c) == files + {path}
  {
  }

  /**
   * The staging files on disk after the call, given those before it. The
   * file `CreateTemp` makes is new; the close-failure path and the deferred
   * cleanup remove it. It stays only when the cleanup finds both results
   * nil, and no other file is touched.
   */
  function StagingAfter(files: set<Path>, c: Collaborators): (r: set<Path>)
    requires c.createTemp.Success? ==> c.createTemp.value !in files
    ensures CleanupKeepsFile(ExecuteDealResult(c)) ==> c.createTemp.Success? && r == files + {c.createTemp.value}
    ensures !CleanupKeepsFile(ExecuteDealResult(c)) ==> r == files
  {
    if c.validation.Some? || c.createTemp.Failure? then files
    else
      var path := c.createTemp.value;
      var created := files + {path};
      if c.closeErr.Some? then created - {path}
      else if CleanupKeepsFile(ExecuteDealResult(c)) then created
      else created - {path}
  }

  /**
   * The deal state handed to the event loop, if any: only a staged deal whose
   * request the loop took, carrying the proposal's fields and the staging
   * file's path.
   */
  function Submission(dp: ClientDealParams, c: Collaborators): (s: Option<ProviderDealState>)
    ensures s.Some? <==> Staged(c) && RequestTaken(c.handshake)
    ensures s.Some? ==> s.value == NewDealState(dp).(inboundFilePath := c.createTemp.value)
    ensures s.Some? ==> s.value.inboundFilePath == c.createTemp.value && s.value.dealUuid == dp.dealUuid
  {
    if Staged(c) && RequestTaken(c.handshake) then
      Some(NewDealState(dp).(inboundFilePath := c.createTemp.value))
    else
      None
  }

  /**
   * The staging files a sequence of `ExecuteDeal` calls leaves behind: those
   * of the calls whose deferred cleanup found both results nil.
   */
  function KeptPaths(calls: seq<Collaborators>): (r: set<Path>)
    ensures forall p :: p in r ==> exists i :: 0 <= i < |calls| && calls[i].createTemp == Success(p)
  {
    if |calls| == 0 then {}
    else
      var head := if CleanupKeepsFile(ExecuteDealResult(calls[0])) then {calls[0].createTemp.value} else {};
      var rest := KeptPaths(calls[1..]);
      assert forall p :: p in rest ==> exists i :: 0 <= i < |calls| && calls[i].createTemp == Success(p) by {
        forall p | p in rest ensures exists i :: 0 <= i < |calls| && calls[i].createTemp == Success(p) {
          var j :| 0 <= j < |calls[1..]| && calls[1..][j].createTemp == Success(p);
          assert calls[j + 1].createTemp == Success(p);
        }
      }
      head + rest
  }

  /** One more call adds its staging file exactly when its cleanup keeps it. */
  lemma {:induction false} KeptPathsSnoc(calls: seq<Collaborators>, c: Collaborators)
    ensures KeptPaths(calls + [c]) ==
              KeptPaths(calls) + (if CleanupKeepsFile(ExecuteDealResult(c)) then {c.createTemp.value} else {})
  {
    if |calls| > 0 {
      assert (calls + [c])[1..] == calls[1..] + [c];
      KeptPathsSnoc(calls[1..], c);
    } else {
      assert calls + [c] == [c];
      assert [c][1..] == [];
    }
  }
}
