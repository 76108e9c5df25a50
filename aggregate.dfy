/** `aggregateAndCombine`: the grand total and the final report. */
module Aggregate {
  import opened Values
  import opened Numeric

  /**
   * What one platform's `count` adds to the total: an int as it is, a
   * float64 through FormatFloat and Atoi, anything else (or no count) 0.
   */
  function Contribution(data: Data): int
  {
    match Get(data, "count")
    case Int(i) => i
    case Num(f) => FloatToCount(f)
    case _ => 0
  }

  /** An int count adds itself, a float count its half-even rounding clamped to int64, anything else 0. */
  lemma ContributionCounts(data: Data)
    ensures Get(data, "count").Int? ==> Contribution(data) == Get(data, "count").i
    ensures Get(data, "count").Num? ==> Contribution(data) == Clamp64(RoundHalfEven(Get(data, "count").f))
    ensures !Get(data, "count").Int? && !Get(data, "count").Num? ==> Contribution(data) == 0
  {
    if Get(data, "count").Num? {
      FloatToCountRounds(Get(data, "count").f);
    }
  }

  /** The sum of the contributions of the entries named in `keys`, in no particular order. */
  ghost function SumOver(results: map<string, Data>, keys: set<string>): int
    requires keys <= results.Keys
    decreases keys
  {
    if keys == {} then 0
    else
      var k :| k in keys;
      Contribution(results[k]) + SumOver(results, keys - {k})
  }

  /** Any entry may be taken first: the sum does not depend on the iteration order. */
  lemma {:induction false} SumOverRemove(results: map<string, Data>, keys: set<string>, k: string)
    requires keys <= results.Keys && k in keys
    ensures SumOver(results, keys) == Contribution(results[k]) + SumOver(results, keys - {k})
    decreases keys
  {
    var k' :| k' in keys && SumOver(results, keys) == Contribution(results[k']) + SumOver(results, keys - {k'});
    if k' != k {
      SumOverRemove(results, keys - {k'}, k);
      SumOverRemove(results, keys - {k}, k');
      assert keys - {k'} - {k} == keys - {k} - {k'};
    }
  }

  /** The total `aggregateAndCombine` reports: the contributions summed in 64-bit `int` arithmetic. */
  ghost function Total(results: map<string, Data>): int
  {
    Wrap64(SumOver(results, results.Keys))
  }

  /** The report: every platform's data, plus `meta.total` and the error messages in arrival order. */
  ghost function Combine(results: map<string, Data>, errors: seq<string>): (report: map<string, Value>)
    ensures report.Keys == results.Keys + {"meta", "errors"}
    ensures forall k :: k in results && k != "meta" && k != "errors" ==> report[k] == Obj(results[k])
    ensures report["meta"] == Obj(map["total" := Int(Total(results))])
    ensures report["errors"] == Strings(errors)
  {
    (map k | k in results :: Obj(results[k]))["meta" := Obj(map["total" := Int(Total(results))])]["errors" := Strings(errors)]
  }

  /** `aggregateAndCombine`, visiting the entries in an arbitrary order as Go's map iteration does. */
  method AggregateAndCombine(results: map<string, Data>, errors: seq<string>) returns (report: map<string, Value>)
    ensures report == Combine(results, errors)
  {
    var total := 0;
    var remaining := results.Keys;
    while remaining != {}
      invariant remaining <= results.Keys
      invariant total == Wrap64(SumOver(results, results.Keys - remaining))
      decreases remaining
    {
      var k :| k in remaining;
      var done := results.Keys - remaining;
      SumOverRemove(results, done + {k}, k);
      assert done + {k} - {k} == done;
      WrapAdd(SumOver(results, done), Contribution(results[k]));
      total := Wrap64(total + Contribution(results[k]));
      remaining := remaining - {k};
      assert results.Keys - remaining == done + {k};
    }
    assert results.Keys - remaining == results.Keys;
    report := map k | k in results :: Obj(results[k]);
    report := report["meta" := Obj(map["total" := Int(total)])];
    var errorsStrings: seq<string> := [];
    var i := 0;
    while i < |errors|
      invariant 0 <= i <= |errors|
      invariant errorsStrings == errors[..i]
    {
      errorsStrings := errorsStrings + [errors[i]];
      assert errors[..i + 1] == errors[..i] + [errors[i]];
      i := i + 1;
    }
    assert errors[..i] == errors;
    report := report["errors" := Strings(errorsStrings)];
  }

  /** Entries without an int or float count add nothing to the total. */
  lemma {:induction false} SumOverIgnoresUncounted(results: map<string, Data>, keys: set<string>, k: string)
    requires keys <= results.Keys && k in keys
    requires !Get(results[k], "count").Int? && !Get(results[k], "count").Num?
    ensures SumOver(results, keys) == SumOver(results, keys - {k})
  {
    SumOverRemove(results, keys, k);
  }
}
