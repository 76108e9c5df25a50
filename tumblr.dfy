/** The Tumblr share/stats parser, from the status and the decoded object on. */
module Tumblr {
  import opened Wrappers
  import opened Values

  /** The `response.note_count` number the type assertions demand; anything else panics. */
  predicate Shape(blob: map<string, Value>)
  {
    "response" in blob && blob["response"].Obj? && Get(blob["response"].fields, "note_count").Num?
  }

  /**
   * `Tumblr().parseWith`: any status but 200 gives the int count 0 without
   * reading the body; otherwise the read/decode error is passed on, or
   * `count` is the float64 `response.note_count`.
   */
  function Tumblr(status: int, decoded: Result<map<string, Value>>): (r: Result<Data>)
    requires status == 200 && decoded.Success? ==> Shape(decoded.value)
    ensures status != 200 ==> r == Success(map["count" := Int(0)])
    ensures status == 200 && decoded.Failure? ==> r == Failure(decoded.error)
    ensures status == 200 && decoded.Success? ==>
      r == Success(map["count" := Num(decoded.value["response"].fields["note_count"].f)])
    ensures r.Success? ==> r.value.Keys == {"count"}
  {
    if status != 200 then
      Success(map["count" := Int(0)])
    else
      match decoded
      case Failure(e) => Failure(e)
      case Success(blob) => Success(map["count" := Num(Get(blob["response"].fields, "note_count").f)])
  }
}
