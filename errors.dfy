/**
 * Go error values as the provider façade uses them: sentinel errors compared
 * by identity, errors built with `fmt.Errorf("...: %w", inner)` that wrap an
 * inner error, and `xerrors.Is`, which walks the wrap chain.
 */
module Errors {
  /** The two errors a cancelled `context.Context` reports from `Err()`. */
  datatype ContextError = Canceled | DeadlineExceeded

  datatype Error =
    | Context(reason: ContextError)        // context.Canceled / context.DeadlineExceeded
    | NoRows                               // sql.ErrNoRows
    | DealNotFound                         // storagemarket.ErrDealNotFound
    | DealHandlerNotFound                  // storagemarket.ErrDealHandlerFound (the handler registry's not-found error)
    | Opaque(msg: string)                  // any other error a collaborator returns
    | Wrapped(prefix: string, inner: Error) // fmt.Errorf(prefix + "%w", inner)

  /** The text `err.Error()` returns. */
  function Message(e: Error): string
  {
    match e
    case Context(Canceled) => "context canceled"
    case Context(DeadlineExceeded) => "context deadline exceeded"
    case NoRows => "sql: no rows in result set"
    case DealNotFound => "deal not found"
    // the registry's error text is declared outside the façade; this text stands in for it
    case DealHandlerNotFound => "deal handler not found"
    case Opaque(msg) => msg
    case Wrapped(prefix, inner) => prefix + Message(inner)
  }

  /** `xerrors.Is(e, target)`: `e` is `target` or wraps it, at any depth. */
  predicate Is(e: Error, target: Error)
  {
    e == target || (e.Wrapped? && Is(e.inner, target))
  }

  /** `fmt.Errorf(prefix + "%w", e)`: the new error still matches everything `e` matches. */
  function Wrap(prefix: string, e: Error): (r: Error)
    ensures Is(r, e) && r != e
    ensures Message(r) == prefix + Message(e)
    ensures forall t :: Is(e, t) ==> Is(r, t)
  {
    Wrapped(prefix, e)
  }

  /** Matching is transitive: an error that wraps a wrapper of `c` matches `c`. */
  lemma {:induction false} IsTransitive(a: Error, b: Error, c: Error)
    requires Is(a, b) && Is(b, c)
    ensures Is(a, c)
  {
    if a != b {
      IsTransitive(a.inner, b, c);
    }
  }
}
