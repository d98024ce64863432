/** Optional values, results, and Go error values as this core uses them:
    sentinel errors compared by identity, errors wrapped with `%w`, and the
    `errors.Is` walk down a wrap chain. */
module Errors {

  datatype Option<+T> = None | Some(value: T)

  /** A Go `(value, error)` pair: exactly one of the two is meaningful. */
  datatype Result<+T> = Ok(value: T) | Err(error: Error)

  /** The package-level sentinel errors this core tests for. */
  datatype Sentinel =
    | MissingRegion   // models.ErrMissingRegion
    | AccessDenied    // services.ErrAccessDeniedException

  /** A Go error value. A sentinel is identified by which sentinel it is, not
      by its text; `Wrapped` is what `fmt.Errorf("<prefix>%w", cause)` builds. */
  datatype Error =
    | SentinelError(sentinel: Sentinel, text: string)
    | Plain(text: string)
    | Wrapped(prefix: string, cause: Error)

  /** The value of models.ErrMissingRegion (its text is a stand-in). */
  const ErrMissingRegion: Error := SentinelError(MissingRegion, "missing default region")

  /** `err.Error()`. */
  function Text(e: Error): string
  {
    match e
    case SentinelError(_, t) => t
    case Plain(t) => t
    case Wrapped(p, c) => p + Text(c)
  }

  /** `errors.Is(e, target)` for the sentinel `target`: some error in the wrap
      chain of `e` is that sentinel. */
  predicate Is(e: Error, target: Sentinel)
  {
    match e
    case SentinelError(s, _) => s == target
    case Plain(_) => false
    case Wrapped(_, c) => Is(c, target)
  }

  /** The innermost error of a wrap chain (what repeated `errors.Unwrap` reaches). */
  function Root(e: Error): (r: Error)
    ensures !r.Wrapped?
    ensures !e.Wrapped? ==> r == e
  {
    if e.Wrapped? then Root(e.cause) else e
  }

  /** `e` wrapped once per prefix, the last prefix outermost. */
  function WrapAll(e: Error, prefixes: seq<string>): Error
  {
    if prefixes == [] then e else Wrapped(prefixes[|prefixes| - 1], WrapAll(e, prefixes[..|prefixes| - 1]))
  }

  /** errors.Is looks through every wrap: it holds exactly when the innermost
      error is the target sentinel. */
  lemma {:induction false} IsIffRoot(e: Error, target: Sentinel)
    ensures Is(e, target) <==> Root(e).SentinelError? && Root(e).sentinel == target
  {
    if e.Wrapped? {
      IsIffRoot(e.cause, target);
    }
  }

  /** Wrapping any number of times neither creates nor hides a sentinel match,
      and leaves the innermost error in place. */
  lemma {:induction false} WrapAllPreservesIs(e: Error, prefixes: seq<string>, target: Sentinel)
    ensures Is(WrapAll(e, prefixes), target) == Is(e, target)
    ensures Root(WrapAll(e, prefixes)) == Root(e)
  {
    if prefixes != [] {
      WrapAllPreservesIs(e, prefixes[..|prefixes| - 1], target);
    }
  }
}
