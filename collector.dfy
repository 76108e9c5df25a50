/**
 * `New`: normalise the selection, resolve the origin, dispatch, join the
 * messages as they arrive, and combine. The goroutines and the channel
 * `select` are replaced by the sequence of messages in arrival order.
 */
module Collector {
  import opened Wrappers
  import opened Values
  import opened Platforms
  import opened Dispatch
  import opened Aggregate

  /** The data of every stat message stored under its name, later messages overwriting earlier ones. */
  function StoreAll(agg: map<string, Data>, msgs: seq<Msg>): (r: map<string, Data>)
    ensures agg.Keys <= r.Keys
  {
    if msgs == [] then agg
    else
      var m := msgs[|msgs| - 1];
      var a := StoreAll(agg, msgs[..|msgs| - 1]);
      if m.StatMsg? then a[m.stat.name := m.stat.data] else a
  }

  /** The error messages, in arrival order. */
  function ErrorsOf(msgs: seq<Msg>): (r: seq<string>)
    ensures |r| <= |msgs|
  {
    if msgs == [] then []
    else
      var m := msgs[|msgs| - 1];
      ErrorsOf(msgs[..|msgs| - 1]) + (if m.ErrMsg? then [m.err] else [])
  }

  /** The errors of consecutive arrivals follow each other: the list keeps arrival order. */
  lemma {:induction false} ErrorsOfAppend(a: seq<Msg>, b: seq<Msg>)
    ensures ErrorsOf(a + b) == ErrorsOf(a) + ErrorsOf(b)
    decreases |b|
  {
    if b == [] {
      assert a + b == a;
    } else {
      var init := b[..|b| - 1];
      assert (a + b)[..|a + b| - 1] == a + init;
      assert (a + b)[|a + b| - 1] == b[|b| - 1];
      ErrorsOfAppend(a, init);
    }
  }

  /** The names the stat messages carry. */
  ghost function StatNames(msgs: seq<Msg>): set<string>
  {
    set m | m in msgs && m.StatMsg? :: m.stat.name
  }

  /**
   * The join loop: every message, stat or error, decrements the counter,
   * and the loop returns once it is at most 0 (the `default` branch is taken
   * as soon as no message is waiting).
   */
  method Join(arrivals: seq<Msg>, taskCount: int, aggregated: map<string, Data>, errorsCollection: seq<string>)
    returns (agg: map<string, Data>, errs: seq<string>, consumed: nat)
    requires taskCount <= |arrivals|
    ensures consumed == if taskCount > 0 then taskCount else 0
    ensures agg == StoreAll(aggregated, arrivals[..consumed])
    ensures errs == errorsCollection + ErrorsOf(arrivals[..consumed])
  {
    agg, errs := aggregated, errorsCollection;
    var count := taskCount;
    var i := 0;
    while count > 0
      invariant 0 <= i <= |arrivals|
      invariant count == taskCount - i
      invariant i > 0 ==> count >= 0
      invariant agg == StoreAll(aggregated, arrivals[..i])
      invariant errs == errorsCollection + ErrorsOf(arrivals[..i])
      decreases count
    {
      var m := arrivals[i];
      assert arrivals[..i + 1][..i] == arrivals[..i];
      match m {
        case StatMsg(stat) =>
          agg := agg[stat.name := stat.data];
        case ErrMsg(e) =>
          errs := errs + [e];
      }
      count := count - 1;
      i := i + 1;
    }
    consumed := i;
  }

  /** The report's keys are the initial keys and the stat names. */
  lemma {:induction false} StoreAllKeys(agg: map<string, Data>, msgs: seq<Msg>)
    ensures StoreAll(agg, msgs).Keys == agg.Keys + StatNames(msgs)
  {
    if msgs != [] {
      var init := msgs[..|msgs| - 1];
      StoreAllKeys(agg, init);
      assert msgs == init + [msgs[|msgs| - 1]];
      assert StatNames(msgs) == StatNames(init) + StatNames([msgs[|msgs| - 1]]);
    }
  }

  /** The last stat message with a given name decides what is stored under it. */
  lemma {:induction false} StoreAllLastWins(agg: map<string, Data>, msgs: seq<Msg>, i: nat)
    requires i < |msgs| && msgs[i].StatMsg?
    requires forall j :: i < j < |msgs| && msgs[j].StatMsg? ==> msgs[j].stat.name != msgs[i].stat.name
    ensures msgs[i].stat.name in StoreAll(agg, msgs)
    ensures StoreAll(agg, msgs)[msgs[i].stat.name] == msgs[i].stat.data
  {
    var init := msgs[..|msgs| - 1];
    StoreAllKeys(agg, init);
    StoreAllKeys(agg, msgs);
    assert msgs[i] in msgs;
    if i < |msgs| - 1 {
      assert init[i] == msgs[i];
      StoreAllLastWins(agg, init, i);
    }
  }

  /** An entry no stat message names keeps its initial value. */
  lemma {:induction false} StoreAllUntouched(agg: map<string, Data>, msgs: seq<Msg>, k: string)
    requires k in agg && k !in StatNames(msgs)
    ensures k in StoreAll(agg, msgs) && StoreAll(agg, msgs)[k] == agg[k]
  {
    if msgs != [] {
      var init := msgs[..|msgs| - 1];
      assert forall m :: m in init ==> m in msgs;
      StoreAllUntouched(agg, init, k);
    }
  }

  /** No two stat messages carry the same name with different data. */
  ghost predicate Consistent(msgs: seq<Msg>)
  {
    forall m1, m2 :: m1 in msgs && m2 in msgs && m1.StatMsg? && m2.StatMsg? && m1.stat.name == m2.stat.name ==> m1 == m2
  }

  /** With consistent names, what is stored under a name is the data of the message carrying it. */
  lemma {:induction false} StoreAllConsistent(agg: map<string, Data>, msgs: seq<Msg>, m: Msg)
    requires Consistent(msgs) && m in msgs && m.StatMsg?
    ensures m.stat.name in StoreAll(agg, msgs)
    ensures StoreAll(agg, msgs)[m.stat.name] == m.stat.data
  {
    var init := msgs[..|msgs| - 1];
    var last := msgs[|msgs| - 1];
    StoreAllKeys(agg, init);
    StoreAllKeys(agg, msgs);
    if !(last.StatMsg? && last.stat.name == m.stat.name) {
      assert msgs == init + [last];
      assert m in init;
      assert forall x :: x in init ==> x in msgs;
      StoreAllConsistent(agg, init, m);
    }
  }

  /** Under consistent names the stored map depends only on which messages arrived, not on their order. */
  lemma StoreAllPermutation(agg: map<string, Data>, a: seq<Msg>, b: seq<Msg>)
    requires multiset(a) == multiset(b) && Consistent(a)
    ensures StoreAll(agg, a) == StoreAll(agg, b)
  {
    assert forall m :: m in a <==> m in b by {
      forall m ensures m in a <==> m in b {
        assert m in a <==> m in multiset(a);
        assert m in b <==> m in multiset(b);
      }
    }
    StoreAllKeys(agg, a);
    StoreAllKeys(agg, b);
    assert StatNames(a) == StatNames(b);
    forall k | k in StoreAll(agg, a)
      ensures StoreAll(agg, a)[k] == StoreAll(agg, b)[k]
    {
      if k in StatNames(a) {
        var m :| m in a && m.StatMsg? && m.stat.name == k;
        StoreAllConsistent(agg, a, m);
        StoreAllConsistent(agg, b, m);
      } else {
        StoreAllUntouched(agg, a, k);
        StoreAllUntouched(agg, b, k);
      }
    }
  }

  /** Each error message appears in the errors list as often as it arrived. */
  lemma {:induction false} ErrorsOfCounts(msgs: seq<Msg>, e: string)
    ensures multiset(ErrorsOf(msgs))[e] == multiset(msgs)[ErrMsg(e)]
  {
    if msgs != [] {
      var init := msgs[..|msgs| - 1];
      ErrorsOfCounts(init, e);
      assert msgs == init + [msgs[|msgs| - 1]];
    }
  }

  /** The errors list is fixed up to order by which messages arrived. */
  lemma ErrorsOfPermutation(a: seq<Msg>, b: seq<Msg>)
    requires multiset(a) == multiset(b)
    ensures multiset(ErrorsOf(a)) == multiset(ErrorsOf(b))
  {
    forall e ensures multiset(ErrorsOf(a))[e] == multiset(ErrorsOf(b))[e] {
      ErrorsOfCounts(a, e);
      ErrorsOfCounts(b, e);
    }
  }

  /** What the origin contributes: its stat on success, nothing at all on failure (the error is only logged). */
  function OriginPart(url: string, x: OriginExchange): (agg: map<string, Data>)
    ensures "origin" in agg <==> OriginOk(x)
    ensures OriginOk(x) ==> agg == map["origin" := OriginData(url, x)]
    ensures !OriginOk(x) ==> agg == map[]
  {
    if OriginOk(x) then map["origin" := OriginData(url, x)] else map[]
  }

  /** The platforms a run dispatches. */
  function Dispatched(table: seq<Platform>, selected: Option<seq<string>>): seq<Platform>
  {
    Applicable(table, Normalize(selected))
  }

  /** The request URLs of the dispatched platforms, all built from the resolved URL. */
  function RequestUrls(d: seq<Platform>, url: string): (r: seq<string>)
    ensures |r| == |d| && forall i :: 0 <= i < |d| ==> r[i] == Substitute(d[i].statsUrl, url)
  {
    seq(|d|, i requires 0 <= i < |d| => Substitute(d[i].statsUrl, url))
  }

  /** Every request URL built from a template with a `%s` gives the looked-up URL back. */
  lemma RequestUrlsReadBack(d: seq<Platform>, url: string)
    ensures |RequestUrls(d, url)| == |d|
    ensures forall i :: 0 <= i < |d| && FirstVerb(d[i].statsUrl, 0).Some? ==>
      ExtractUrl(d[i].statsUrl, RequestUrls(d, url)[i]) == Some(url)
  {
    forall i | 0 <= i < |d| && FirstVerb(d[i].statsUrl, 0).Some?
      ensures ExtractUrl(d[i].statsUrl, RequestUrls(d, url)[i]) == Some(url)
    {
      SubstituteRoundTrip(d[i].statsUrl, url);
    }
  }

  /** The report `New` returns for a given arrival order. */
  ghost function Collect(table: seq<Platform>, lookupUrl: string, selected: Option<seq<string>>,
                         origin: OriginExchange, arrivals: seq<Msg>): map<string, Value>
    requires |Dispatched(table, selected)| <= |arrivals|
  {
    var n := |Dispatched(table, selected)|;
    Combine(StoreAll(OriginPart(lookupUrl, origin), arrivals[..n]), ErrorsOf(arrivals[..n]))
  }

  /**
   * `New`. `arrivals` is the order in which the dispatched goroutines'
   * messages reached the join; `requestUrls` are the URLs they requested.
   */
  method New(table: seq<Platform>, lookupUrl: string, selected: Option<seq<string>>,
             origin: OriginExchange, arrivals: seq<Msg>)
    returns (report: map<string, Value>, requestUrls: seq<string>)
    requires !origin.OriginRequestFailed?
    requires |Dispatched(table, selected)| <= |arrivals|
    ensures requestUrls == RequestUrls(Dispatched(table, selected), Resolved(lookupUrl, origin))
    ensures report == Collect(table, lookupUrl, selected, origin, arrivals)
  {
    var sel := Normalize(selected);
    var aggregated: map<string, Data> := map[];
    var rStat, urls, rError := ResolveAndOpenGraph(lookupUrl, origin);
    if rError.None? {
      aggregated := aggregated[rStat.name := rStat.data];
    }
    assert aggregated == OriginPart(lookupUrl, origin);
    var resolved := urls[|urls| - 1];
    var dispatched, taskCount := DispatchAll(table, sel);
    requestUrls := RequestUrls(dispatched, resolved);
    var agg, errs, consumed := Join(arrivals, taskCount, aggregated, []);
    assert consumed == |dispatched|;
    assert [] + ErrorsOf(arrivals[..consumed]) == ErrorsOf(arrivals[..consumed]);
    report := AggregateAndCombine(agg, errs);
  }
}
