/** `parseJSONP`: the text between the first `(` and the last `)` of a JSONP body. */
module Jsonp {
  import opened Wrappers

  /** `i` is the first position of `c` in `s`. */
  predicate IsFirst(s: string, c: char, i: int)
  {
    0 <= i < |s| && s[i] == c && forall k :: 0 <= k < i ==> s[k] != c
  }

  /** `i` is the last position of `c` in `s`. */
  predicate IsLast(s: string, c: char, i: int)
  {
    0 <= i < |s| && s[i] == c && forall k :: i < k < |s| ==> s[k] != c
  }

  /** `strings.Index` for a one-character needle: the first position, or -1. */
  function IndexOf(s: string, c: char): (i: int)
    ensures i == -1 <==> c !in s
    ensures i != -1 ==> IsFirst(s, c, i)
  {
    if s == [] then -1
    else if s[0] == c then 0
    else
      var j := IndexOf(s[1..], c);
      assert forall k :: 1 <= k < |s| ==> s[k] == s[1..][k - 1];
      if j == -1 then -1 else j + 1
  }

  /** `strings.LastIndex` for a one-character needle: the last position, or -1. */
  function LastIndexOf(s: string, c: char): (i: int)
    ensures i == -1 <==> c !in s
    ensures i != -1 ==> IsLast(s, c, i)
  {
    if s == [] then -1
    else if s[|s| - 1] == c then |s| - 1
    else
      var j := LastIndexOf(s[..|s| - 1], c);
      assert forall k :: 0 <= k < |s| - 1 ==> s[k] == s[..|s| - 1][k];
      j
  }

  const PayloadError := "Something is wrong with payload."

  /** The slice `parseJSONP` takes exists: the first `(` comes before the last `)`. */
  ghost predicate Sliceable(body: string)
  {
    forall i, j :: IsFirst(body, '(', i) && IsLast(body, ')', j) ==> i < j
  }

  /**
   * `parseJSONP`. The source slices without checking that the first `(`
   * precedes the last `)`; a body where it does not panics, hence the
   * precondition.
   */
  function ParseJSONP(body: string): (r: Result<string>)
    requires Sliceable(body)
    ensures r.Failure? <==> '(' !in body || ')' !in body
    ensures r.Failure? ==> r.error == PayloadError
    ensures r.Success? ==> forall i, j :: IsFirst(body, '(', i) && IsLast(body, ')', j) ==> r.value == body[i + 1..j]
  {
    var iStart := IndexOf(body, '(');
    var iEnd := LastIndexOf(body, ')');
    if iStart == -1 || iEnd == -1 then Failure(PayloadError)
    else
      assert forall i :: IsFirst(body, '(', i) ==> i == iStart;
      assert forall j :: IsLast(body, ')', j) ==> j == iEnd;
      Success(body[iStart + 1..iEnd])
  }

  /** The callback wrapper of a JSONP answer is stripped. */
  lemma ParseJSONPExample()
    ensures ParseJSONP("cb(7)") == Success("7")
  {
    var s := "cb(7)";
    assert IsFirst(s, '(', 2);
    assert IsLast(s, ')', 4);
    assert s[2] == '(' && s[4] == ')';
    assert s[3..4] == "7";
  }

  /**
   * The slice panics exactly when both parentheses occur and the first `(`
   * comes after the last `)`; a missing one is reported instead.
   */
  lemma ClosingBeforeOpening(body: string)
    ensures !Sliceable(body) <==>
      '(' in body && ')' in body && IndexOf(body, '(') > LastIndexOf(body, ')')
  {
    var i := IndexOf(body, '(');
    var j := LastIndexOf(body, ')');
    forall a, b | IsFirst(body, '(', a) && IsLast(body, ')', b) ensures a == i && b == j {
      assert body[a] == '(' && body[b] == ')';
    }
    if i != -1 && j != -1 {
      assert body[i] != body[j];
    }
  }
}
