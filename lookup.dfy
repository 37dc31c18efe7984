/**
 * The façade's lookups and their error mapping: `Deal` over the deals
 * database, `CancelDeal` and `SubscribeDealUpdates` over the deal-handler
 * registry. The database and the registry are inputs.
 */
module Lookup {
  import opened Wrappers
  import opened Errors
  import opened Execution

  /** What `dealsDB.ByID` returned. */
  datatype DealLookup = DealLookup(deal: Option<ProviderDealState>, err: Option<Error>)

  /** What `Deal` returns. */
  datatype DealReply = DealReply(deal: Option<ProviderDealState>, err: Option<Error>)

  /** `xerrors.Is(err, sql.ErrNoRows)` on a nil-able error. */
  predicate IsNoRows(err: Option<Error>)
  {
    err.Some? && Is(err.value, NoRows)
  }

  /**
   * `Deal`, as written: a missing row becomes an error matching
   * `ErrDealNotFound`; in every other case the looked-up deal comes back
   * with no error, so any other database error is dropped.
   */
  function Deal(dealUuid: Uuid, byId: DealLookup): (r: DealReply)
    ensures r.err.Some? <==> IsNoRows(byId.err)
    ensures r.err.Some? ==>
              r.deal.None? && Is(r.err.value, DealNotFound) &&
              Message(r.err.value) == "getting deal " + dealUuid + ": deal not found"
    ensures r.err.None? ==> r.deal == byId.deal
  {
    if IsNoRows(byId.err) then
      DealReply(None, Some(Wrap("getting deal " + dealUuid + ": ", DealNotFound)))
    else
      DealReply(byId.deal, None)
  }

  /** A failed database read that `Deal` reports as a successful lookup of nothing. */
  lemma DealDropsDbError()
    ensures Deal("d1", DealLookup(None, Some(Opaque("connection refused")))) == DealReply(None, None)
  {
  }

  /**
   * `Deal` with the database error propagated: it fails exactly when the
   * read failed, a missing row still reads as `ErrDealNotFound`, and
   * wherever the read did not fail with another error it agrees with `Deal`.
   */
  function DealChecked(dealUuid: Uuid, byId: DealLookup): (r: DealReply)
    ensures r.err.Some? <==> byId.err.Some?
    ensures r.err.Some? ==> r.deal.None?
    ensures IsNoRows(byId.err) ==> Is(r.err.value, DealNotFound)
    ensures byId.err.Some? && !IsNoRows(byId.err) ==> r.err == byId.err
    ensures byId.err.None? || IsNoRows(byId.err) ==> r == Deal(dealUuid, byId)
  {
    match byId.err
    case None => DealReply(byId.deal, None)
    case Some(e) =>
      if Is(e, NoRows) then DealReply(None, Some(Wrap("getting deal " + dealUuid + ": ", DealNotFound)))
      else DealReply(None, Some(e))
  }

  /** What `CancelDeal` returns, and which handler it told to cancel. */
  datatype CancelOutcome = CancelOutcome(err: Option<Error>, cancelled: Option<Uuid>)

  /**
   * `CancelDeal`: a handler that is found is cancelled and nil is returned;
   * a lookup that fails with the registry's not-found error is nil too; any
   * other lookup error is returned as it is. Nothing is cancelled when the
   * lookup fails.
   */
  function CancelDeal(handler: Result<Uuid, Error>): (r: CancelOutcome)
    ensures r.cancelled.Some? <==> handler.Success?
    ensures handler.Success? ==> r == CancelOutcome(None, Some(handler.value))
    ensures r.err.Some? <==> handler.Failure? && !Is(handler.error, DealHandlerNotFound)
    ensures r.err.Some? ==> r.err.value == handler.error
  {
    match handler
    case Success(id) => CancelOutcome(None, Some(id))
    case Failure(e) =>
      if Is(e, DealHandlerNotFound) then CancelOutcome(None, None)
      else CancelOutcome(Some(e), None)
  }

  /**
   * `SubscribeDealUpdates`: unlike `CancelDeal`, every lookup error reaches
   * the caller, the not-found one included; a found handler's own
   * subscription result is passed through.
   */
  function SubscribeDealUpdates(handler: Result<Uuid, Error>, subscribe: Result<nat, Error>): (r: Result<nat, Error>)
    ensures handler.Failure? ==> r == Failure(handler.error)
    ensures handler.Success? ==> r == subscribe
    ensures handler == Failure(DealHandlerNotFound) ==>
              r.Failure? && CancelDeal(handler).err.None?
  {
    match handler
    case Failure(e) => Failure(e)
    case Success(_) => subscribe
  }
}
