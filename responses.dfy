/** The list normalization the pages apply to a response body: a bare array is
    the list itself, a paginated envelope `{results}` yields its results, and a
    missing `results` yields []. The pages differ only on a null body: the
    RiskScoring fetch and the Claims loader read `.results` of null and throw,
    while AssetMap and Triggers guard with `?.` and get []. */
module Responses {
  import opened Common

  /** A decoded response body: null, a JSON array, or an object whose `results`
      key may be absent. */
  datatype Body<T> = Null | Array(items: seq<T>) | Envelope(results: Option<seq<T>>)

  /** Reading a property of null throws a TypeError. */
  datatype NormalizeError = NullBody

  /** `Array.isArray(b) ? b : b.results || []` — an array is always truthy, so
      `|| []` only replaces an absent `results`. */
  function NormalizeUnguarded<T>(b: Body<T>): (r: Result<seq<T>, NormalizeError>)
    ensures r.Err? <==> b.Null?
    ensures b.Envelope? && b.results.None? ==> r == Ok([])
  {
    match b
    case Null => Err(NullBody)
    case Array(items) => Ok(items)
    case Envelope(results) => Ok(if results.Some? then results.value else [])
  }

  /** `Array.isArray(b) ? b : b?.results || []` — the same, with null reading as []. */
  function NormalizeGuarded<T>(b: Body<T>): (r: seq<T>)
    ensures b.Null? ==> r == []
    ensures b.Envelope? && b.results.None? ==> r == []
  {
    match b
    case Null => []
    case Array(items) => items
    case Envelope(results) => if results.Some? then results.value else []
  }

  /** The two copies agree on every body but null. */
  lemma GuardedAgreesUnguarded<T>(b: Body<T>)
    requires !b.Null?
    ensures NormalizeUnguarded(b) == Ok(NormalizeGuarded(b))
  {
  }

  /** A list sent bare or in a paginated envelope reads back as itself. */
  lemma NormalizeRoundTrip<T>(xs: seq<T>)
    ensures NormalizeGuarded(Array(xs)) == xs && NormalizeGuarded(Envelope(Some(xs))) == xs
    ensures NormalizeUnguarded(Array(xs)) == Ok(xs) && NormalizeUnguarded(Envelope(Some(xs))) == Ok(xs)
  {
  }

  /** Normalizing an already normalized list changes nothing. */
  lemma NormalizeIdempotent<T>(b: Body<T>)
    ensures NormalizeGuarded(Array(NormalizeGuarded(b))) == NormalizeGuarded(b)
  {
  }

  /** What the risk scoring page lists: its query function normalizes without
      the null guard, and a request that fails (a non-ok status is None) or
      throws leaves the query without data, which `riskZonesRaw || []` reads as []. */
  function RiskScoringList<T>(response: Option<Body<T>>): (r: seq<T>)
    ensures response.None? ==> r == []
  {
    match response
    case None => []
    case Some(b) =>
      match NormalizeUnguarded(b)
      case Ok(xs) => xs
      case Err(_) => []
  }

  /** Through the query's error path the unguarded copy ends with the same list
      as the guarded one, for every successful response. */
  lemma RiskScoringListIsGuarded<T>(b: Body<T>)
    ensures RiskScoringList(Some(b)) == NormalizeGuarded(b)
  {
  }
}
