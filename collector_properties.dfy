/**
 * What a whole run guarantees. With one message per dispatch (the intended
 * dispatch rule) the report holds exactly the origin on success, every
 * dispatched platform that succeeded, `meta` and `errors`, whatever the
 * arrival order. As written, a non-200 answer sends two messages, and the
 * join can then return before another platform has reported.
 */
module CollectorProperties {
  import opened Wrappers
  import opened Values
  import opened Platforms
  import opened Dispatch
  import opened Aggregate
  import opened Collector
  import Tumblr

  /** Filtering the table keeps its names distinct. */
  lemma {:induction false} ApplicableNamesOk(table: seq<Platform>, selected: seq<string>)
    requires NamesOk(table)
    ensures NamesOk(Applicable(table, selected))
  {
    if table != [] {
      var init := table[..|table| - 1];
      var last := table[|table| - 1];
      assert NamesOk(init);
      ApplicableNamesOk(init, selected);
      var a := Applicable(init, selected);
      forall k | 0 <= k < |a| ensures a[k].name != last.name {
        ApplicableMembers(init, selected, a[k]);
        var j := IndexIn(init, a[k]);
        assert table[j] == a[k];
      }
    }
  }

  /** A dispatch ends in a stat under the intended rule. */
  predicate Succeeds(x: Exchange)
  {
    x.Responded? && x.status == 200 && x.parsed.Success?
  }

  ghost predicate WellAnswered(d: seq<Platform>, answers: string -> Exchange)
  {
    forall p :: p in d ==> !answers(p.name).RequestFailed?
  }

  /** One message per dispatched platform under the intended rule, in dispatch order. */
  function FixedMessages(d: seq<Platform>, url: string, answers: string -> Exchange): (msgs: seq<Msg>)
    requires forall p :: p in d ==> !answers(p.name).RequestFailed?
    ensures |msgs| == |d|
  {
    seq(|d|, i requires 0 <= i < |d| => DoRequestFixed(d[i], url, answers(d[i].name)))
  }

  /** The messages the dispatches send as the source is written, in dispatch order. */
  function AsWrittenMessages(d: seq<Platform>, url: string, answers: string -> Exchange): (msgs: seq<Msg>)
    requires forall p :: p in d ==> !answers(p.name).RequestFailed?
    ensures |d| <= |msgs| <= 2 * |d|
  {
    if d == [] then []
    else
      var last := d[|d| - 1];
      assert last in d;
      AsWrittenMessages(d[..|d| - 1], url, answers) + DoRequest(last, url, answers(last.name))
  }

  /**
   * When no dispatch meets a non-200 status, the source already sends the
   * intended messages, so every property of the intended run holds of it.
   */
  lemma {:induction false} AsWrittenOnOk(d: seq<Platform>, url: string, answers: string -> Exchange)
    requires WellAnswered(d, answers)
    requires forall p :: p in d ==> !(answers(p.name).Responded? && answers(p.name).status != 200)
    ensures AsWrittenMessages(d, url, answers) == FixedMessages(d, url, answers)
  {
    if d != [] {
      var init := d[..|d| - 1];
      var last := d[|d| - 1];
      assert last in d;
      assert forall p :: p in init ==> p in d;
      AsWrittenOnOk(init, url, answers);
      FixedAgreesOnOk(last, url, answers(last.name));
      assert FixedMessages(d, url, answers) == FixedMessages(init, url, answers) + [DoRequestFixed(last, url, answers(last.name))];
    }
  }

  /** The intended messages carry at most one stat per name. */
  lemma FixedConsistent(d: seq<Platform>, url: string, answers: string -> Exchange)
    requires NamesOk(d) && WellAnswered(d, answers)
    ensures Consistent(FixedMessages(d, url, answers))
  {
    var msgs := FixedMessages(d, url, answers);
    forall m1, m2 | m1 in msgs && m2 in msgs && m1.StatMsg? && m2.StatMsg? && m1.stat.name == m2.stat.name
      ensures m1 == m2
    {
      var i :| 0 <= i < |msgs| && msgs[i] == m1;
      var j :| 0 <= j < |msgs| && msgs[j] == m2;
      assert d[i].name == d[j].name;
    }
  }

  lemma FixedStats(d: seq<Platform>, url: string, answers: string -> Exchange)
    requires WellAnswered(d, answers)
    ensures forall p :: p in d && Succeeds(answers(p.name)) ==>
      StatMsg(Stamped(p, answers(p.name).parsed.value, answers(p.name).fetchedIn, answers(p.name).completedIn))
        in FixedMessages(d, url, answers)
  {
    var msgs := FixedMessages(d, url, answers);
    forall p | p in d && Succeeds(answers(p.name))
      ensures StatMsg(Stamped(p, answers(p.name).parsed.value, answers(p.name).fetchedIn, answers(p.name).completedIn)) in msgs
    {
      var i := IndexIn(d, p);
      assert msgs[i] == DoRequestFixed(p, url, answers(p.name));
    }
  }

  lemma FixedStatNames(d: seq<Platform>, url: string, answers: string -> Exchange)
    requires WellAnswered(d, answers)
    ensures StatNames(FixedMessages(d, url, answers)) == set p | p in d && Succeeds(answers(p.name)) :: p.name
  {
    var msgs := FixedMessages(d, url, answers);
    var want := set p | p in d && Succeeds(answers(p.name)) :: p.name;
    forall k | k in StatNames(msgs) ensures k in want {
      var m :| m in msgs && m.StatMsg? && m.stat.name == k;
      var i :| 0 <= i < |msgs| && msgs[i] == m;
      assert d[i] in d;
    }
    forall k | k in want ensures k in StatNames(msgs) {
      var p :| p in d && Succeeds(answers(p.name)) && p.name == k;
      var i := IndexIn(d, p);
      assert msgs[i] in msgs;
    }
  }

  /** The names of the dispatched platforms whose exchange succeeded. */
  ghost function SucceededNames(d: seq<Platform>, answers: string -> Exchange): set<string>
  {
    set p | p in d && Succeeds(answers(p.name)) :: p.name
  }

  /** The stat a succeeding platform sends. */
  function StatOf(p: Platform, x: Exchange): Stat
    requires Succeeds(x)
  {
    Stamped(p, x.parsed.value, x.fetchedIn, x.completedIn)
  }

  /** A permutation of a consistent message sequence stores and reports the same. */
  lemma ArrivalsAsFixed(agg: map<string, Data>, arrivals: seq<Msg>, fixed: seq<Msg>)
    requires multiset(arrivals) == multiset(fixed) && Consistent(fixed)
    ensures |arrivals| == |fixed|
    ensures StoreAll(agg, arrivals) == StoreAll(agg, fixed)
    ensures multiset(ErrorsOf(arrivals)) == multiset(ErrorsOf(fixed))
  {
    assert |arrivals| == |multiset(arrivals)| == |fixed|;
    ErrorsOfPermutation(arrivals, fixed);
    StoreAllPermutation(agg, fixed, arrivals);
  }

  /** Storing the intended messages over the origin's part adds the succeeding platforms' names. */
  lemma FixedResultKeys(agg0: map<string, Data>, d: seq<Platform>, url: string, answers: string -> Exchange)
    requires WellAnswered(d, answers)
    ensures StoreAll(agg0, FixedMessages(d, url, answers)).Keys == agg0.Keys + SucceededNames(d, answers)
  {
    FixedStatNames(d, url, answers);
    StoreAllKeys(agg0, FixedMessages(d, url, answers));
  }

  /** Each succeeding platform's stamped data is stored under its name. */
  lemma FixedResultStats(agg0: map<string, Data>, d: seq<Platform>, url: string, answers: string -> Exchange)
    requires NamesOk(d) && WellAnswered(d, answers)
    ensures forall p :: p in d && Succeeds(answers(p.name)) ==>
      p.name in StoreAll(agg0, FixedMessages(d, url, answers)) &&
      StoreAll(agg0, FixedMessages(d, url, answers))[p.name] == StatOf(p, answers(p.name)).data
  {
    var fixed := FixedMessages(d, url, answers);
    FixedConsistent(d, url, answers);
    FixedStats(d, url, answers);
    forall p | p in d && Succeeds(answers(p.name))
      ensures p.name in StoreAll(agg0, fixed) && StoreAll(agg0, fixed)[p.name] == StatOf(p, answers(p.name)).data
    {
      StoreAllConsistent(agg0, fixed, StatMsg(StatOf(p, answers(p.name))));
    }
  }

  /** The origin's part survives when no platform uses its key. */
  lemma FixedResultOrigin(agg0: map<string, Data>, d: seq<Platform>, url: string, answers: string -> Exchange)
    requires WellAnswered(d, answers)
    requires forall p :: p in d ==> p.name !in agg0
    ensures forall k :: k in agg0 ==>
      (k in StoreAll(agg0, FixedMessages(d, url, answers)) && StoreAll(agg0, FixedMessages(d, url, answers))[k] == agg0[k])
  {
    var fixed := FixedMessages(d, url, answers);
    FixedStatNames(d, url, answers);
    forall k | k in agg0 ensures k in StoreAll(agg0, fixed) && StoreAll(agg0, fixed)[k] == agg0[k] {
      StoreAllUntouched(agg0, fixed, k);
    }
  }

  /** Dispatched platforms never use the report's reserved keys. */
  lemma DispatchedNamesFree(table: seq<Platform>, selected: Option<seq<string>>, p: Platform)
    requires NamesOk(table) && p in Dispatched(table, selected)
    ensures p.name != "origin" && p.name != "meta" && p.name != "errors"
  {
    ApplicableMembers(table, Normalize(selected), p);
    var i := IndexIn(table, p);
  }

  /** When exactly the dispatched count of messages arrived, the report covers all of them. */
  lemma CollectWhole(table: seq<Platform>, lookupUrl: string, selected: Option<seq<string>>,
                     origin: OriginExchange, arrivals: seq<Msg>)
    requires |Dispatched(table, selected)| == |arrivals|
    ensures Collect(table, lookupUrl, selected, origin, arrivals) ==
      Combine(StoreAll(OriginPart(lookupUrl, origin), arrivals), ErrorsOf(arrivals))
  {
    assert arrivals[..|arrivals|] == arrivals;
  }

  /** The dispatched platforms have distinct names, none of them `origin`. */
  lemma DispatchedFacts(table: seq<Platform>, lookupUrl: string, selected: Option<seq<string>>, origin: OriginExchange)
    requires NamesOk(table)
    ensures NamesOk(Dispatched(table, selected))
    ensures forall p :: p in Dispatched(table, selected) ==> p.name !in OriginPart(lookupUrl, origin)
  {
    ApplicableNamesOk(table, Normalize(selected));
    forall p | p in Dispatched(table, selected) ensures p.name !in OriginPart(lookupUrl, origin) {
      DispatchedNamesFree(table, selected, p);
    }
  }

  /** Under the intended rule a run's report is the combination of the intended messages' results. */
  lemma CollectAsFixed(table: seq<Platform>, lookupUrl: string, selected: Option<seq<string>>,
                       origin: OriginExchange, answers: string -> Exchange, arrivals: seq<Msg>)
    requires NamesOk(table)
    requires WellAnswered(Dispatched(table, selected), answers)
    requires multiset(arrivals) == multiset(FixedMessages(Dispatched(table, selected), Resolved(lookupUrl, origin), answers))
    ensures |Dispatched(table, selected)| == |arrivals|
    ensures Collect(table, lookupUrl, selected, origin, arrivals) ==
      Combine(StoreAll(OriginPart(lookupUrl, origin), FixedMessages(Dispatched(table, selected), Resolved(lookupUrl, origin), answers)),
              ErrorsOf(arrivals))
    ensures multiset(ErrorsOf(arrivals)) == multiset(ErrorsOf(FixedMessages(Dispatched(table, selected), Resolved(lookupUrl, origin), answers)))
  {
    var d := Dispatched(table, selected);
    var fixed := FixedMessages(d, Resolved(lookupUrl, origin), answers);
    DispatchedFacts(table, lookupUrl, selected, origin);
    FixedConsistent(d, Resolved(lookupUrl, origin), answers);
    ArrivalsAsFixed(OriginPart(lookupUrl, origin), arrivals, fixed);
    CollectWhole(table, lookupUrl, selected, origin, arrivals);
  }

  /** A run under the intended rule: distinct names, and the intended messages in some arrival order. */
  ghost predicate IntendedRun(table: seq<Platform>, lookupUrl: string, selected: Option<seq<string>>,
                              origin: OriginExchange, answers: string -> Exchange, arrivals: seq<Msg>)
  {
    NamesOk(table) &&
    WellAnswered(Dispatched(table, selected), answers) &&
    multiset(arrivals) == multiset(FixedMessages(Dispatched(table, selected), Resolved(lookupUrl, origin), answers))
  }

  lemma CombineKeys(results: map<string, Data>, errors: seq<string>, agg0: map<string, Data>, names: set<string>, ok: bool)
    requires results.Keys == agg0.Keys + names
    requires agg0.Keys == if ok then {"origin"} else {}
    ensures Combine(results, errors).Keys == {"meta", "errors"} + (if ok then {"origin"} else {}) + names
  {
  }

  lemma ReportKeys(table: seq<Platform>, lookupUrl: string, selected: Option<seq<string>>,
                   origin: OriginExchange, answers: string -> Exchange, arrivals: seq<Msg>)
    requires IntendedRun(table, lookupUrl, selected, origin, answers, arrivals)
    ensures |Dispatched(table, selected)| <= |arrivals|
    ensures Collect(table, lookupUrl, selected, origin, arrivals).Keys ==
      {"meta", "errors"} + (if OriginOk(origin) then {"origin"} else {}) + SucceededNames(Dispatched(table, selected), answers)
  {
    CollectAsFixed(table, lookupUrl, selected, origin, answers, arrivals);
    var agg0 := OriginPart(lookupUrl, origin);
    var d := Dispatched(table, selected);
    FixedResultKeys(agg0, d, Resolved(lookupUrl, origin), answers);
    CombineKeys(StoreAll(agg0, FixedMessages(d, Resolved(lookupUrl, origin), answers)), ErrorsOf(arrivals),
                agg0, SucceededNames(d, answers), OriginOk(origin));
  }

  lemma ReportStats(table: seq<Platform>, lookupUrl: string, selected: Option<seq<string>>,
                    origin: OriginExchange, answers: string -> Exchange, arrivals: seq<Msg>)
    requires IntendedRun(table, lookupUrl, selected, origin, answers, arrivals)
    ensures |Dispatched(table, selected)| <= |arrivals|
    ensures forall p :: p in Dispatched(table, selected) && Succeeds(answers(p.name)) ==>
      p.name in Collect(table, lookupUrl, selected, origin, arrivals) &&
      Collect(table, lookupUrl, selected, origin, arrivals)[p.name] == Obj(StatOf(p, answers(p.name)).data)
  {
    CollectAsFixed(table, lookupUrl, selected, origin, answers, arrivals);
    var d := Dispatched(table, selected);
    var agg0 := OriginPart(lookupUrl, origin);
    DispatchedFacts(table, lookupUrl, selected, origin);
    FixedResultStats(agg0, d, Resolved(lookupUrl, origin), answers);
    forall p | p in d && Succeeds(answers(p.name))
      ensures p.name in Collect(table, lookupUrl, selected, origin, arrivals)
      ensures Collect(table, lookupUrl, selected, origin, arrivals)[p.name] == Obj(StatOf(p, answers(p.name)).data)
    {
      DispatchedNamesFree(table, selected, p);
    }
  }

  lemma ReportOrigin(table: seq<Platform>, lookupUrl: string, selected: Option<seq<string>>,
                     origin: OriginExchange, answers: string -> Exchange, arrivals: seq<Msg>)
    requires IntendedRun(table, lookupUrl, selected, origin, answers, arrivals)
    ensures |Dispatched(table, selected)| <= |arrivals|
    ensures OriginOk(origin) ==>
      ("origin" in Collect(table, lookupUrl, selected, origin, arrivals) &&
       Collect(table, lookupUrl, selected, origin, arrivals)["origin"] == Obj(OriginData(lookupUrl, origin)))
  {
    CollectAsFixed(table, lookupUrl, selected, origin, answers, arrivals);
    DispatchedFacts(table, lookupUrl, selected, origin);
    FixedResultOrigin(OriginPart(lookupUrl, origin), Dispatched(table, selected), Resolved(lookupUrl, origin), answers);
  }

  /**
   * With one message per dispatched platform, arriving in any order, the
   * report holds `meta`, `errors`, `origin` exactly when resolution
   * succeeded, and exactly the dispatched platforms that succeeded, each
   * with its stamped data; the errors are those of the other platforms.
   */
  lemma ReportWithOneMessageEach(table: seq<Platform>, lookupUrl: string, selected: Option<seq<string>>,
                                 origin: OriginExchange, answers: string -> Exchange, arrivals: seq<Msg>)
    requires NamesOk(table)
    requires WellAnswered(Dispatched(table, selected), answers)
    requires multiset(arrivals) == multiset(FixedMessages(Dispatched(table, selected), Resolved(lookupUrl, origin), answers))
    ensures |Dispatched(table, selected)| <= |arrivals|
    ensures Collect(table, lookupUrl, selected, origin, arrivals).Keys ==
      {"meta", "errors"} + (if OriginOk(origin) then {"origin"} else {}) + SucceededNames(Dispatched(table, selected), answers)
    ensures forall p :: p in Dispatched(table, selected) && Succeeds(answers(p.name)) ==>
      Collect(table, lookupUrl, selected, origin, arrivals)[p.name] == Obj(StatOf(p, answers(p.name)).data)
    ensures OriginOk(origin) ==> Collect(table, lookupUrl, selected, origin, arrivals)["origin"] == Obj(OriginData(lookupUrl, origin))
    ensures multiset(Collect(table, lookupUrl, selected, origin, arrivals)["errors"].ss) ==
      multiset(ErrorsOf(FixedMessages(Dispatched(table, selected), Resolved(lookupUrl, origin), answers)))
  {
    ReportKeys(table, lookupUrl, selected, origin, answers, arrivals);
    ReportStats(table, lookupUrl, selected, origin, answers, arrivals);
    ReportOrigin(table, lookupUrl, selected, origin, answers, arrivals);
    CollectAsFixed(table, lookupUrl, selected, origin, answers, arrivals);
  }

  /**
   * Under the intended rule the report does not depend on the arrival
   * order, except for the order of the error messages.
   */
  lemma ArrivalOrderIrrelevant(table: seq<Platform>, lookupUrl: string, selected: Option<seq<string>>,
                               origin: OriginExchange, answers: string -> Exchange, a: seq<Msg>, b: seq<Msg>)
    requires NamesOk(table)
    requires WellAnswered(Dispatched(table, selected), answers)
    requires multiset(a) == multiset(FixedMessages(Dispatched(table, selected), Resolved(lookupUrl, origin), answers))
    requires multiset(b) == multiset(a)
    ensures |Dispatched(table, selected)| <= |a| && |Dispatched(table, selected)| <= |b|
    ensures Collect(table, lookupUrl, selected, origin, a).Keys == Collect(table, lookupUrl, selected, origin, b).Keys
    ensures forall k :: k in Collect(table, lookupUrl, selected, origin, a) && k != "errors" ==>
      Collect(table, lookupUrl, selected, origin, a)[k] == Collect(table, lookupUrl, selected, origin, b)[k]
    ensures multiset(Collect(table, lookupUrl, selected, origin, a)["errors"].ss) ==
      multiset(Collect(table, lookupUrl, selected, origin, b)["errors"].ss)
  {
    CollectAsFixed(table, lookupUrl, selected, origin, answers, a);
    CollectAsFixed(table, lookupUrl, selected, origin, answers, b);
  }

  /** A table prefix none of whose platforms is admitted dispatches nothing. */
  lemma {:induction false} NoneAdmitted(t: seq<Platform>, sel: seq<string>)
    requires forall i :: 0 <= i < |t| ==> !Admitted(t[i], sel)
    ensures Applicable(t, sel) == []
  {
    if t != [] {
      var init := t[..|t| - 1];
      assert forall i :: 0 <= i < |init| ==> init[i] == t[i];
      NoneAdmitted(init, sel);
    }
  }

  /**
   * The selection `tumblr,pocket` on the program's table dispatches Pocket
   * first and Tumblr second: dispatch follows the table, not the selection.
   */
  lemma TumblrPocketDispatched()
    ensures Dispatched(Table, Some(["tumblr", "pocket"])) == [PocketPlatform, TumblrPlatform]
  {
    var sel := Normalize(Some(["tumblr", "pocket"]));
    assert sel == ["tumblr", "pocket", "origin"];
    var head := Table[..6];
    assert head == [FacebookPlatform, LinkedinPlatform, GooglePlusPlatform, RedditPlatform, BufferPlatform, StumbleuponPlatform];
    NoneAdmitted(head, sel);
    assert Table[..7][..6] == head;
    assert Table[..8][..7] == Table[..7];
    assert Table[..|Table| - 1] == Table[..8];
    assert Applicable(Table[..7], sel) == [PocketPlatform];
    assert Applicable(Table[..8], sel) == [PocketPlatform, TumblrPlatform];
  }

  /** Tumblr's answer as a dispatch sees it. */
  function TumblrAnswer(status: int, statusText: string, decoded: Result<map<string, Value>>, fetchedIn: real, completedIn: real): Exchange
    requires status == 200 && decoded.Success? ==> Tumblr.Shape(decoded.value)
  {
    Responded(status, statusText, Tumblr.Tumblr(status, decoded), fetchedIn, completedIn)
  }

  /** An answer whose status is not 200 but whose body still parses: `doRequest` sends two messages for it. */
  predicate ParsesDespiteStatus(x: Exchange)
  {
    x.Responded? && x.status != 200 && x.parsed.Success?
  }

  /** Every non-200 answer from Tumblr is of that kind: its parser yields a zero count without reading the body. */
  lemma TumblrNon200Parses(status: int, statusText: string, decoded: Result<map<string, Value>>, fetchedIn: real, completedIn: real)
    requires status != 200
    ensures ParsesDespiteStatus(TumblrAnswer(status, statusText, decoded, fetchedIn, completedIn))
    ensures TumblrAnswer(status, statusText, decoded, fetchedIn, completedIn).parsed.value == map["count" := Int(0)]
  {
  }

  /**
   * As written: with the selection `tumblr,pocket` the program's table
   * dispatches Pocket, then Tumblr. An answer from Tumblr with a non-200
   * status that still parses (every non-200 answer, by TumblrNon200Parses)
   * sends two messages; when both arrive first they fill the join, and
   * Pocket's result is missing from the report whatever Pocket answered.
   */
  lemma DoubleMessageDropsResult(lookupUrl: string, origin: OriginExchange, tumblr: Exchange, pocket: Exchange)
    requires ParsesDespiteStatus(tumblr) && !pocket.RequestFailed?
    ensures Dispatched(Table, Some(["tumblr", "pocket"])) == [PocketPlatform, TumblrPlatform]
    ensures |DoRequest(TumblrPlatform, Resolved(lookupUrl, origin), tumblr)| == 2
    ensures "pocket" !in Collect(Table, lookupUrl, Some(["tumblr", "pocket"]), origin,
                                 DoRequest(TumblrPlatform, Resolved(lookupUrl, origin), tumblr) +
                                 DoRequest(PocketPlatform, Resolved(lookupUrl, origin), pocket))
  {
    TumblrPocketDispatched();
    SecondCrowdedOut(Table, lookupUrl, Some(["tumblr", "pocket"]), origin,
                     TumblrPlatform, PocketPlatform, tumblr, DoRequest(PocketPlatform, Resolved(lookupUrl, origin), pocket));
  }

  /**
   * Two dispatches, in either order, and one of them answering twice
   * first: whatever else arrives after, no other name is reported.
   */
  lemma SecondCrowdedOut(table: seq<Platform>, lookupUrl: string, selected: Option<seq<string>>, origin: OriginExchange,
                         tp: Platform, pp: Platform, tumblr: Exchange, rest: seq<Msg>)
    requires |Dispatched(table, selected)| == 2
    requires ParsesDespiteStatus(tumblr)
    requires tp.name != pp.name && pp.name != "origin" && pp.name != "meta" && pp.name != "errors"
    ensures pp.name !in Collect(table, lookupUrl, selected, origin,
                                DoRequest(tp, Resolved(lookupUrl, origin), tumblr) + rest)
  {
    var first := DoRequest(tp, Resolved(lookupUrl, origin), tumblr);
    assert first[1].stat.name == tp.name;
    JoinFilledByTwo(table, lookupUrl, selected, origin, first, rest);
    assert OriginPart(lookupUrl, origin).Keys <= {"origin"};
  }

  /**
   * When two platforms are dispatched and the first two messages to arrive
   * are an error and a stat, the report holds that stat besides the origin
   * and nothing of what arrives later.
   */
  lemma JoinFilledByTwo(table: seq<Platform>, lookupUrl: string, selected: Option<seq<string>>,
                        origin: OriginExchange, first: seq<Msg>, rest: seq<Msg>)
    requires |Dispatched(table, selected)| == 2
    requires |first| == 2 && first[0].ErrMsg? && first[1].StatMsg?
    ensures Collect(table, lookupUrl, selected, origin, first + rest).Keys ==
      OriginPart(lookupUrl, origin).Keys + {"meta", "errors", first[1].stat.name}
    ensures Collect(table, lookupUrl, selected, origin, first + rest)["errors"] == Strings([first[0].err])
  {
    var agg0 := OriginPart(lookupUrl, origin);
    assert (first + rest)[..2] == first;
    assert first[..1][..0] == [];
    assert StoreAll(agg0, first[..1]) == agg0;
    assert ErrorsOf(first[..1]) == [first[0].err];
    assert ErrorsOf(first) == [first[0].err];
  }

  /** Corrected: under the intended rule the same answers keep Pocket's result, in any arrival order. */
  lemma FixedKeepsResult(lookupUrl: string, origin: OriginExchange, tumblr: Exchange, pocket: Exchange, arrivals: seq<Msg>)
    requires ParsesDespiteStatus(tumblr) && Succeeds(pocket)
    requires multiset(arrivals) == multiset(FixedMessages([PocketPlatform, TumblrPlatform], Resolved(lookupUrl, origin),
      n => if n == "tumblr" then tumblr else pocket))
    ensures Dispatched(Table, Some(["tumblr", "pocket"])) == [PocketPlatform, TumblrPlatform]
    ensures |arrivals| == 2
    ensures "pocket" in Collect(Table, lookupUrl, Some(["tumblr", "pocket"]), origin, arrivals)
  {
    var d := [PocketPlatform, TumblrPlatform];
    TumblrPocketDispatched();
    TableNamesOk();
    var answers := (n: string) => if n == "tumblr" then tumblr else pocket;
    assert |arrivals| == |multiset(arrivals)| == 2;
    ReportWithOneMessageEach(Table, lookupUrl, Some(["tumblr", "pocket"]), origin, answers, arrivals);
    assert "pocket" in SucceededNames(d, answers) by {
      assert PocketPlatform in d && Succeeds(answers(PocketPlatform.name));
    }
  }
}
