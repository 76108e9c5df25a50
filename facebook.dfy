/** The Facebook links.getStats parser, from the decoded `[]map[string]interface{}` on. */
module Facebook {
  import opened Wrappers
  import opened Values

  /** The count attributes copied from the first record, in the order they are written. */
  const CountKeys: seq<string> :=
    ["share_count", "like_count", "comment_count", "total_count", "click_count", "commentsbox_count"]

  /**
   * `Facebook().parseWith` after `json.Unmarshal`: `decoded` is the decoded
   * array, or the read/decode error. Each count key of the first record is
   * copied (nil when absent) and `count` is aliased to `total_count`.
   */
  method Facebook(decoded: Result<seq<map<string, Value>>>) returns (r: Result<Data>)
    ensures decoded.Failure? ==> r == Failure(decoded.error)
    ensures decoded.Success? && |decoded.value| == 0 ==> r == Failure("No data")
    ensures decoded.Success? && |decoded.value| > 0 ==>
      && r.Success?
      && r.value.Keys == (set k | k in CountKeys) + {"count"}
      && (forall k :: k in CountKeys ==> r.value[k] == Get(decoded.value[0], k))
      && r.value["count"] == Get(decoded.value[0], "total_count")
  {
    if decoded.Failure? {
      return Failure(decoded.error);
    }
    var blob := decoded.value;
    if |blob| < 1 {
      return Failure("No data");
    }
    var data: Data := map[];
    var i := 0;
    while i < |CountKeys|
      invariant 0 <= i <= |CountKeys|
      invariant data.Keys == set k | k in CountKeys[..i]
      invariant forall k :: k in CountKeys[..i] ==> data[k] == Get(blob[0], k)
    {
      var key := CountKeys[i];
      data := data[key := Get(blob[0], key)];
      assert CountKeys[..i + 1] == CountKeys[..i] + [key];
      i := i + 1;
    }
    assert CountKeys[..i] == CountKeys;
    data := data["count" := data["total_count"]];
    return Success(data);
  }
}
