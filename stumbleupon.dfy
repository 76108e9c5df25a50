/** The StumbleUpon badge.getinfo parser, from the decoded object on. */
module Stumbleupon {
  import opened Wrappers
  import opened Numeric
  import opened Values

  /** The `result` object of the payload. */
  function ResultObject(blob: map<string, Value>): map<string, Value>
    requires "result" in blob && blob["result"].Obj?
  {
    blob["result"].fields
  }

  /**
   * What the type assertions demand: a `result` object and, when it is in
   * the index, `views` as a string or a number; anything else panics.
   */
  predicate Shape(blob: map<string, Value>)
  {
    "result" in blob && blob["result"].Obj? &&
    (Get(ResultObject(blob), "in_index") == Bool(true) ==>
      Get(ResultObject(blob), "views").Str? || Get(ResultObject(blob), "views").Num?)
  }

  /**
   * `Stumbleupon().parseWith` after `json.Unmarshal`: `count` is a float64,
   * 0 unless `in_index` is exactly true; a string `views` goes through Atoi
   * with its error dropped, a numeric one is taken as it is.
   */
  function Stumbleupon(decoded: Result<map<string, Value>>): (r: Result<Data>)
    requires decoded.Success? ==> Shape(decoded.value)
    ensures decoded.Failure? <==> r.Failure?
    ensures decoded.Failure? ==> r.error == decoded.error
    ensures r.Success? ==> r.value.Keys == {"count"} && r.value["count"].Num?
    ensures decoded.Success? && Get(ResultObject(decoded.value), "in_index") != Bool(true) ==>
      r == Success(map["count" := Num(0.0)])
    ensures decoded.Success? && Get(ResultObject(decoded.value), "in_index") == Bool(true) ==>
      match Get(ResultObject(decoded.value), "views")
      case Str(v) => r == Success(map["count" := Num(Atoi(v).value as real)])
      case Num(x) => r == Success(map["count" := Num(x)])
      case _ => false
  {
    match decoded
    case Failure(e) => Failure(e)
    case Success(blob) =>
      var result := ResultObject(blob);
      var count :=
        if Get(result, "in_index") == Bool(true) then
          match Get(result, "views")
          case Str(v) => Atoi(v).value as real
          case Num(x) => x
        else 0.0;
      Success(map["count" := Num(count)])
  }

  /**
   * A `views` string that is not an integer counts as 0, because the Atoi
   * error is dropped, unless its digits overflow before the bad character.
   */
  lemma UnparsableViewsCountZero(blob: map<string, Value>, v: string)
    requires Shape(blob) && Get(ResultObject(blob), "in_index") == Bool(true)
    requires Get(ResultObject(blob), "views") == Str(v) && !IsIntegerSyntax(v) && !OverflowsEarly(v)
    ensures Stumbleupon(Success(blob)) == Success(map["count" := Num(0.0)])
  {
  }

  /**
   * A `views` string whose digits pass 2^64 - 1 before anything else counts
   * as the int64 bound of its sign, whatever follows them.
   */
  lemma OverflowingViewsSaturate(blob: map<string, Value>, v: string)
    requires Shape(blob) && Get(ResultObject(blob), "in_index") == Bool(true)
    requires Get(ResultObject(blob), "views") == Str(v) && OverflowsEarly(v)
    ensures Stumbleupon(Success(blob)) ==
      Success(map["count" := Num(if |v| > 0 && v[0] == '-' then MinInt64 as real else MaxInt64 as real)])
  {
  }

  /** A digit string counts as the number it spells, clamped to int64. */
  lemma DigitViewsCount(blob: map<string, Value>, v: string)
    requires Shape(blob) && Get(ResultObject(blob), "in_index") == Bool(true)
    requires Get(ResultObject(blob), "views") == Str(v)
    requires |v| > 0 && AllDigits(v)
    ensures Stumbleupon(Success(blob)) == Success(map["count" := Num(Clamp64(DecimalValue(v)) as real)])
  {
  }
}
