/** Mapping a builder over an ordered list of entities, as both `array_map`
    in the lazy collections and the `foreach` of the eager factory do: the
    builder runs on each entity in order, and the first exception stops the
    walk and propagates, after the failing call has been made. */
module Mapping {
  import opened Base

  /** True when every entity of `es` builds without an exception. */
  ghost predicate AllBuild<E, V>(f: E -> Result<V>, es: seq<E>) {
    forall i :: 0 <= i < |es| ==> f(es[i]).Ok?
  }

  /** Index of the first entity whose build throws, as observed by a walk
      that stops there. */
  ghost predicate FirstFailureAt<E, V>(f: E -> Result<V>, es: seq<E>, k: int) {
    && 0 <= k < |es|
    && f(es[k]).Err?
    && forall i :: 0 <= i < k ==> f(es[i]).Ok?
  }

  function MapAll<E, V>(f: E -> Result<V>, es: seq<E>): (r: Built<seq<V>>)
    // the walk succeeds exactly when every entity builds
    ensures r.outcome.Ok? <==> AllBuild(f, es)
    // on success: one view per entity, in the entities' order, one call each
    ensures r.outcome.Ok? ==>
      && |r.outcome.value| == |es|
      && (forall i :: 0 <= i < |es| ==> f(es[i]) == Ok(r.outcome.value[i]))
      && r.calls == |es|
    // on failure: the first failing build's exception, after exactly the
    // calls up to and including it
    ensures r.outcome.Err? ==>
      exists k :: FirstFailureAt(f, es, k) && r.calls == k + 1 && r.outcome.error == f(es[k]).error
    decreases |es|
  {
    if |es| == 0 then Built(Ok([]), 0)
    else
      match f(es[0])
      case Err(e) =>
        assert FirstFailureAt(f, es, 0);
        Built(Err(e), 1)
      case Ok(v) =>
        var rest := MapAll(f, es[1..]);
        match rest.outcome
        case Err(e) =>
          assert exists j :: FirstFailureAt(f, es, j) && rest.calls + 1 == j + 1 && e == f(es[j]).error by {
            var k :| FirstFailureAt(f, es[1..], k) && rest.calls == k + 1 && e == f(es[1..][k]).error;
            forall i | 0 <= i < k + 1 ensures f(es[i]).Ok? {
              if i > 0 { assert es[i] == es[1..][i - 1]; }
            }
            assert FirstFailureAt(f, es, k + 1);
          }
          Built(Err(e), rest.calls + 1)
        case Ok(vs) =>
          assert forall i :: 0 < i < |es| ==> es[i] == es[1..][i - 1];
          Built(Ok([v] + vs), rest.calls + 1)
  }
}
