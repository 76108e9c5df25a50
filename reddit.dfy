/** The Reddit api/info.json parser, from the decoded object on. */
module Reddit {
  import opened Wrappers
  import opened Values

  /** A child of kind `t3` (a link), the only kind that contributes. */
  predicate IsLink(c: Value)
  {
    c.Obj? && Get(c.fields, "kind") == Str("t3")
  }

  /**
   * The shape the parser's type assertions demand of one child: an object
   * and, for a link, a `data` object with numeric `ups` and `downs`.
   */
  predicate ChildShape(c: Value)
  {
    c.Obj? &&
    (IsLink(c) ==>
      "data" in c.fields && c.fields["data"].Obj? &&
      Get(c.fields["data"].fields, "ups").Num? && Get(c.fields["data"].fields, "downs").Num?)
  }

  /** The shape demanded of the whole payload; anything else panics in the source. */
  predicate Shape(blob: map<string, Value>)
  {
    "data" in blob && blob["data"].Obj? &&
    "children" in blob["data"].fields && blob["data"].fields["children"].Arr? &&
    forall c :: c in blob["data"].fields["children"].items ==> ChildShape(c)
  }

  function Children(blob: map<string, Value>): seq<Value>
    requires Shape(blob)
  {
    blob["data"].fields["children"].items
  }

  /** The sum of numeric field `f` over the link children of `cs`. */
  function SumLinks(cs: seq<Value>, f: string): real
    requires forall c :: c in cs ==> ChildShape(c)
    requires f == "ups" || f == "downs"
  {
    if cs == [] then 0.0
    else
      var last := cs[|cs| - 1];
      assert last in cs && ChildShape(last);
      SumLinks(cs[..|cs| - 1], f) + (if IsLink(last) then Get(last.fields["data"].fields, f).f else 0.0)
  }

  /** Sums distribute over concatenation of child lists. */
  lemma {:induction false} SumLinksAppend(xs: seq<Value>, ys: seq<Value>, f: string)
    requires forall c :: c in xs + ys ==> ChildShape(c)
    requires f == "ups" || f == "downs"
    ensures SumLinks(xs + ys, f) == SumLinks(xs, f) + SumLinks(ys, f)
    decreases |ys|
  {
    if ys == [] {
      assert xs + ys == xs;
    } else {
      var ys' := ys[..|ys| - 1];
      assert (xs + ys)[..|xs + ys| - 1] == xs + ys';
      SumLinksAppend(xs, ys', f);
    }
  }

  /** Children that are not links contribute nothing. */
  lemma {:induction false} SumLinksNoLinks(cs: seq<Value>, f: string)
    requires forall c :: c in cs ==> ChildShape(c) && !IsLink(c)
    requires f == "ups" || f == "downs"
    ensures SumLinks(cs, f) == 0.0
  {
    if cs != [] {
      SumLinksNoLinks(cs[..|cs| - 1], f);
    }
  }

  /**
   * `Reddit().parseWith` after `json.Unmarshal`: `ups` and `downs` summed over
   * the `t3` children, `count` their sum, all as float64.
   */
  method Reddit(decoded: Result<map<string, Value>>) returns (r: Result<Data>)
    requires decoded.Success? ==> Shape(decoded.value)
    ensures decoded.Failure? ==> r == Failure(decoded.error)
    ensures decoded.Success? ==>
      var ups := SumLinks(Children(decoded.value), "ups");
      var downs := SumLinks(Children(decoded.value), "downs");
      r == Success(map["ups" := Num(ups), "downs" := Num(downs), "count" := Num(ups + downs)])
  {
    if decoded.Failure? {
      return Failure(decoded.error);
    }
    var children := Children(decoded.value);
    var ups, downs := 0.0, 0.0;
    var i := 0;
    while i < |children|
      invariant 0 <= i <= |children|
      invariant ups == SumLinks(children[..i], "ups")
      invariant downs == SumLinks(children[..i], "downs")
    {
      var el := children[i];
      assert el in children;
      assert children[..i + 1][..i] == children[..i];
      if Get(el.fields, "kind") == Str("t3") {
        var d := el.fields["data"].fields;
        ups := ups + Get(d, "ups").f;
        downs := downs + Get(d, "downs").f;
      }
      i := i + 1;
    }
    assert children[..i] == children;
    return Success(map["ups" := Num(ups), "downs" := Num(downs), "count" := Num(ups + downs)]);
  }
}
