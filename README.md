# Storage-deal provider façade, modelled in Dafny

This project models the public façade of a storage-deal provider, the
`Provider` type in `storagemarket/provider.go`. Remote clients propose
deals to the provider. For each proposal the façade does the following:

- validates it;
- creates a staging file for the inbound data;
- sends the deal to the acceptance event loop and blocks until the loop
  replies or the provider's context ends;
- returns one of three outcomes: a rejection with a reason, an
  infrastructure error, or a clean acceptance (`nil, nil`).

A validation failure or a failure to create the staging file leaves no file
to remove. If closing the new file fails, the file is removed explicitly
before the error is returned. From then on, a deferred cleanup removes the
file on every exit that returns rejection info or an error. The file stays
after a clean acceptance. It also stays when the call panics, because the
cleanup then finds both results nil.

The façade also does the following:

- looks deals up in the deals database;
- cancels a deal through the deal-handler registry;
- starts and closes the provider: it creates a cancellable context, launches
  the event loop under a wait group, and runs cancel-and-wait once;
- reports a fixed storage ask.

Everything the façade calls becomes an input of the model. That covers
proposal validation, the file store, the database, the handler registry and
the event loop. Their code is not part of this model.

## Modules

- `Wrappers` (`wrappers.dfy`): `Option` and `Result`, for Go's nil-able values.
- `Errors` (`errors.dfy`): Go errors as the façade uses them. It has sentinel
  values, `fmt.Errorf("…%w", e)` wrapping, and `xerrors.Is`, which follows
  the wrap chain.
- `Acceptance` (`acceptance.dfy`): the handshake with the event loop.
  `checkForDealAcceptance` has two `select` statements. The model turns
  them into a choice of the event that happened first: the context ended
  before the send, the context ended before the reply, or the reply arrived.
- `Execution` (`execution.dfy`): what `ExecuteDeal` decides, as functions.
  It covers the return values, the staging files left on disk, and the deal
  state handed to the loop.
- `Lifecycle` (`lifecycle.dfy`): `Start` and `Close` as steps on flags and
  counters. It also runs any sequence of those calls.
- `Lookup` (`lookup.dfy`): the error mapping of `Deal`, `CancelDeal` and
  `SubscribeDealUpdates`.
- `Ask` (`ask.dfy`): `GetAsk`.
- `StorageMarket` (`provider.dfy`): the `Provider` class. Its methods
  `Start`, `Close` and `ExecuteDeal` change the object's fields. Each method
  is proved against the step functions above. The class invariant says two
  things:
  - cancel-and-wait has run exactly when the once has fired;
  - the staging files on disk are exactly those of the `ExecuteDeal` calls
    whose deferred cleanup found both results nil. Those are the clean
    acceptances and the panics.

## Model

| member | source | states |
|---|---|---|
| `Errors.Wrap` | storagemarket/provider.go:158 | A `%w`-wrapped error still matches the error it wraps, and everything that error matches. Its text is the prefix followed by the inner text. |
| `Errors.IsTransitive` | storagemarket/provider.go:258 | `xerrors.Is` matching is transitive through chains of wrapping. |
| `Acceptance.CheckForDealAcceptance` | storagemarket/provider.go:191-209 | The handshake returns an error exactly when the context ended before the send or before the reply. That error is the context's own error, and the response is then empty. Otherwise the loop's reply comes back unchanged with no error. |
| `Execution.NewDealState` | storagemarket/provider.go:139-146 | The deal state copies every field of the proposal: the deal id, the proposal, the miner peer as its own peer, the client peer, the data root and the transfer. It has no staging path yet. |
| `Execution.Verdict` | storagemarket/provider.go:172-188 | Classifies the handshake result. The checks run in this order: the handshake error, then the reply's error (before its accepted flag), then a non-accepted reply, then acceptance. Each error result matches its cause. A non-accepted reply with rejection info returns that `ri` with a nil error. A non-accepted reply without rejection info panics: the log line reads `resp.ri.Reason` first. The result is `(nil, nil)` exactly on an accepted reply with no error. Rejection info and error are never both set. |
| `Execution.ExecuteDealResult` | storagemarket/provider.go:136-189 | Rejection info and error are never both set. A validation failure is a rejection whose reason is "failed validation: " followed by the error text, with a nil error. Failures to create or close the file, and the context ending during the handshake, are errors that match their cause. The result is `(nil, nil)` exactly when the file was staged and the loop replied, with no error, that it accepted. The call panics exactly when the loop replied, with no error, that it did not accept, but gave no rejection info. |
| `Execution.SilentRejectionPanicsAndKeepsFile` | storagemarket/provider.go:166-184 | A non-accepted reply with neither rejection info nor error makes the call panic, and the staging file stays on disk. |
| `Execution.StagingAfter` | storagemarket/provider.go:155-170 | A call adds exactly its new file when the deferred cleanup finds both results nil, which means a clean acceptance or a panic. Otherwise the set of staging files is unchanged. A close failure removes the file it just created. No other file is touched. |
| `Execution.Submission` | storagemarket/provider.go:164-196 | A deal reaches the event loop only if validation, file creation and file close all succeeded and the loop took the request. It is then the deal state built from the proposal, carrying the staging file's path. A deal that fails validation never enters the loop. |
| `Execution.KeptPaths` | storagemarket/provider.go:164-170 | Every staging file that a sequence of calls leaves behind was created by one of those calls. |
| `Execution.KeptPathsSnoc` | storagemarket/provider.go:164-170 | A further call adds its staging file to the files left behind exactly when its deferred cleanup finds both results nil. |
| `Lifecycle.StartStep` | storagemarket/provider.go:211-230 | `Start` always installs a fresh context that is not cancelled. It launches the loop, adding one to the wait group, and the tracker only if table creation succeeded. Otherwise it returns an error that matches the table error and launches nothing. The close-once state is never reset. |
| `Lifecycle.CloseStep` | storagemarket/provider.go:232-238 | The first `Close` cancels the context and waits until the wait group is empty. The transfer tracker is not joined. Later calls change nothing. A first call made before `Start` panics on the nil cancel function. |
| `Lifecycle.RunKeepsInv` | storagemarket/provider.go:211-238 | Every sequence of `Start` and `Close` calls keeps this invariant: cancel-and-wait has run once exactly when the once has fired, and a cancelled context means `Close` ran and left no loop in the wait group. |
| `Lifecycle.CancelRunsAtMostOnce` | storagemarket/provider.go:233-236 | From a new provider, cancel-and-wait runs at most once, however often and in whatever order `Start` and `Close` are called. |
| `Lifecycle.RestartAfterCloseIsNeverJoined` | storagemarket/provider.go:214-236 | After the first `Close`, a successful `Start` launches a loop. A later `Close` neither cancels it nor waits for it. |
| `Lookup.Deal` | storagemarket/provider.go:114-120 | As written: `Deal` returns an error exactly when the read failed with a missing row. That error matches `ErrDealNotFound` and reads "getting deal <id>: deal not found". In every other case the looked-up deal comes back with a nil error. |
| `Lookup.DealDropsDbError` | storagemarket/provider.go:115-119 | A read that fails with another error is reported as `(nil, nil)`. |
| `Lookup.DealChecked` | storagemarket/provider.go:114-120 | Corrected: `DealChecked` fails exactly when the read failed. A missing row still matches `ErrDealNotFound`, and other errors are returned unchanged. It agrees with `Deal` wherever `Deal` does not drop an error. |
| `Lookup.CancelDeal` | storagemarket/provider.go:255-265 | A handler that is found is cancelled, and the result is nil. A lookup error matching the registry's not-found error gives nil. Any other lookup error is returned unchanged. Nothing is cancelled when the lookup fails. |
| `Lookup.SubscribeDealUpdates` | storagemarket/provider.go:246-252 | Every lookup error reaches the caller, including the not-found one that `CancelDeal` swallows. A found handler's subscription result is passed through. |
| `Ask.GetAsk` | storagemarket/provider.go:126-134 | The minimum piece size is 0. The maximum is 64 GiB, which fits in 64 bits. Price and verified price are both 1. The miner is the provider's address. |
| `StorageMarket.Provider.constructor` | storagemarket/provider.go:87-111 | A new provider has started nothing, has no staging files and has sent no deal to the loop. |
| `StorageMarket.Provider.Start` | storagemarket/provider.go:211-230 | Updates the lifecycle fields as `StartStep` says, returns its error, and keeps the class invariant. |
| `StorageMarket.Provider.Close` | storagemarket/provider.go:232-238 | Updates the lifecycle fields as `CloseStep` says, always returns nil, and keeps the class invariant. |
| `StorageMarket.Provider.ExecuteDeal` | storagemarket/provider.go:136-189 | Returns `ExecuteDealResult`, or reports the panic it predicts with both results nil. It updates the staging files as `StagingAfter` says and records the deal sent to the loop as `Submission` says. While no event loop is in the wait group, a staged call fails with the context's error and sends nothing. That is the case before a successful `Start`, after a failed one, and after `Close` until the next successful `Start`. It keeps this invariant: the files on disk are exactly those of the calls whose deferred cleanup found both results nil. |

## Left out

- Goroutines, channels and `select` are not modelled as concurrency. Each
  `ExecuteDeal` call takes the event that fired first as an input. Go picks
  at random when more than one case is ready, and so does the input.
- `sync.Once` and `sync.WaitGroup` are modelled as a flag and a counter.
  `wg.Wait` is modelled by its outcome: the counter is zero when it returns.
  The loop's own `Done` call is in code that is not part of this model.
- The event loop, the handler registry, the new-deal pubsub, the transfer
  tracker, `validateDealProposal`, the `Adapter`, the deal publisher and the
  HTTP transport are not part of this model. Their results are inputs.
- `SubscribeNewDeals` and `NBytesReceived` are not modelled. They only pass
  through to the new-deal pubsub and the transfer tracker, which are not
  part of this model.
- The file store, `os.MkdirAll`, `os.Remove` and `path.Join` are not
  modelled. `CreateTemp` is an input that reports a new path or an error.
  The staging files are a ghost set of paths.
- `os.Remove` errors are discarded by the source. The model assumes every
  removal succeeds, so a file whose removal fails is not tracked.
- The deals database and `db.CreateTables` are not modelled. Their results
  are inputs.
- `ExecuteDeal` hands the loop a pointer to its deal state. The model hands
  over a copy, so it does not capture the loop changing `InboundFilePath`
  before the deferred cleanup reads it.
- The parent context of `Start` is not modelled. Its cancellation shows up
  only as the handshake's context-ended events.
- Logging, the `Config` transfer duration and the `NewProvider`
  construction plumbing are not modelled. They make no decisions.
- `StorageMarket.Provider.Close` requires that `Start` has run. A first
  `Close` before `Start` calls a nil cancel function and panics. The pure
  `Lifecycle.CloseStep` models that panic as `None`.
- `StorageMarket.Provider.ExecuteDeal` requires that `Start` has run when
  the call reaches the handshake. Otherwise the nil `p.ctx` would panic.
  While the wait group holds no event loop, it also requires the handshake
  input to be the context ending before the send. No loop was launched, or
  `Close` has joined it. The request channel is unbuffered, so nothing can
  take the request.
- `Errors.Message` gives a stand-in text for the registry's not-found
  error. Its real text is declared outside this model.
- `Close` waits only for the event loop, because only the loop is added to
  the wait group (storagemarket/provider.go:223-226). The transfer tracker
  is launched outside the wait group and is not joined.
- A panic in `ExecuteDeal` is modelled as a reported outcome. What happens
  to the process after it is not modelled.

## Findings

| source | as written | input that shows it | evidently intended | confidence | as-written member | corrected member |
|---|---|---|---|---|---|---|
| storagemarket/provider.go:114-120 | `Deal` returns `deal, nil` whenever the error is not `sql.ErrNoRows`, so other database errors are dropped | `dealsDB.ByID` returns a nil deal and a connection error; `Deal` returns `(nil, nil)` | return the database error to the caller | medium, not executed | `Lookup.DealDropsDbError` | `Lookup.DealChecked` |
