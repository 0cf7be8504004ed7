/**
 * The search both failover resolvers perform: instances are tried in list
 * order and the first one whose attempt yields a result wins.
 */
module Failover {
  import opened Wrappers

  /** Each item paired with its position in the list. */
  function Numbered<X>(items: seq<X>): (r: seq<(nat, X)>)
    ensures |r| == |items|
    ensures forall k :: 0 <= k < |r| ==> r[k] == (k, items[k])
  {
    seq(|items|, k requires 0 <= k < |items| => (k, items[k]))
  }

  /**
   * The position and result of the first instance for which `probe` succeeds,
   * or None when it fails for every instance.
   */
  function FirstSuccess<X, T>(instances: seq<X>, probe: X -> Option<T>): (r: Option<(nat, T)>)
    ensures r.Some? ==> r.value.0 < |instances| && probe(instances[r.value.0]) == Some(r.value.1)
    ensures r.Some? ==> forall k :: 0 <= k < r.value.0 ==> probe(instances[k]).None?
    ensures r.None? <==> forall k :: 0 <= k < |instances| ==> probe(instances[k]).None?
  {
    if instances == [] then None
    else match probe(instances[0])
      case Some(v) => Some((0, v))
      case None =>
        match FirstSuccess(instances[1..], probe)
        case None => None
        case Some((k, v)) => Some((k + 1, v))
  }

  /** The first success is at `i` when the probe succeeds there and nowhere before. */
  lemma WinnerAt<X, T>(instances: seq<X>, probe: X -> Option<T>, i: nat)
    requires i < |instances| && probe(instances[i]).Some?
    requires forall k :: 0 <= k < i ==> probe(instances[k]).None?
    ensures FirstSuccess(instances, probe) == Some((i, probe(instances[i]).value))
  {
  }

  /** Instances after the winner are never looked at: changing them changes nothing. */
  lemma {:induction false} LaterInstancesIrrelevant<X, T>(instances: seq<X>, rest: seq<X>, probe: X -> Option<T>)
    requires FirstSuccess(instances, probe).Some?
    ensures FirstSuccess(instances + rest, probe) == FirstSuccess(instances, probe)
  {
    if probe(instances[0]).None? {
      assert (instances + rest)[1..] == instances[1..] + rest;
      LaterInstancesIrrelevant(instances[1..], rest, probe);
    }
  }

  /** A search result moved `n` positions further down the list. */
  function Shift<T>(r: Option<(nat, T)>, n: nat): (s: Option<(nat, T)>)
    ensures s.None? <==> r.None?
    ensures r.Some? ==> s.value.0 == r.value.0 + n && s.value.1 == r.value.1
  {
    match r
    case None => None
    case Some((k, v)) => Some((k + n, v))
  }

  /** A failing first instance only shifts the search over the remaining ones. */
  lemma SkipFailedHead<X, T>(instances: seq<X>, probe: X -> Option<T>)
    requires instances != [] && probe(instances[0]).None?
    ensures FirstSuccess(instances, probe) == Shift(FirstSuccess(instances[1..], probe), 1)
  {
  }

  /** When every instance fails, appending more instances just continues the search. */
  lemma {:induction false} FailedPrefixSkipped<X, T>(failed: seq<X>, rest: seq<X>, probe: X -> Option<T>)
    requires FirstSuccess(failed, probe).None?
    ensures FirstSuccess(failed + rest, probe) == Shift(FirstSuccess(rest, probe), |failed|)
  {
    if failed == [] {
      assert failed + rest == rest;
      match FirstSuccess(rest, probe)
      case None =>
      case Some((k, v)) =>
    } else {
      var all := failed + rest;
      assert all[0] == failed[0];
      SkipFailedHead(failed, probe);
      SkipFailedHead(all, probe);
      assert all[1..] == failed[1..] + rest;
      FailedPrefixSkipped(failed[1..], rest, probe);
      match FirstSuccess(rest, probe)
      case None =>
      case Some((k, v)) =>
    }
  }
}
