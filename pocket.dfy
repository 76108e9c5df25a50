/** The Pocket button parser: `\sid="cnt">(\d+)</em>` over the response body. */
module Pocket {
  import opened Wrappers
  import opened Numeric
  import opened Values
  import opened Scanner

  const PocketPattern: Pattern :=
    Pattern([Space, Lit('i'), Lit('d'), Lit('='), Lit('"'), Lit('c'), Lit('n'), Lit('t'), Lit('"'), Lit('>')],
            [Lit('<'), Lit('/'), Lit('e'), Lit('m'), Lit('>')])

  /** `Pocket().parseWith`, from the result of reading the body. */
  function Pocket(body: Result<string>): (r: Result<Data>)
    ensures body.Failure? ==> r == Failure(body.error)
    ensures body.Success? && (forall i, d :: !MatchAt(PocketPattern, body.value, i, d)) ==>
      r == Success(map["count" := Int(0)])
    ensures body.Success? ==> forall i, d :: MatchAt(PocketPattern, body.value, i, d) && Leftmost(PocketPattern, body.value, i) ==>
      r == if DecimalValue(d) <= MaxInt64 then Success(map["count" := Int(DecimalValue(d))])
           else Failure(RangeMessage(d))
    ensures r.Success? ==> r.value.Keys == {"count"}
  {
    ParseCount(PocketPattern, body)
  }

  /**
   * The pattern read back as text: whitespace, `id="cnt">`, a non-empty run
   * of digits, then `</em>`.
   */
  lemma PocketPatternMeaning(s: string, i: nat, d: string)
    ensures MatchAt(PocketPattern, s, i, d) <==>
      && i + 10 + |d| + 5 <= |s|
      && IsSpace(s[i]) && s[i + 1..i + 10] == "id=\"cnt\">"
      && |d| > 0 && AllDigits(d) && s[i + 10..i + 10 + |d|] == d
      && s[i + 10 + |d|..i + 15 + |d|] == "</em>"
  {
    var p := PocketPattern;
    if i + 10 + |d| + 5 <= |s| {
      var h := s[i..i + 10];
      assert AtomsMatch(p.head, h) <==>
        IsSpace(h[0]) && h[1] == 'i' && h[2] == 'd' && h[3] == '=' && h[4] == '"' &&
        h[5] == 'c' && h[6] == 'n' && h[7] == 't' && h[8] == '"' && h[9] == '>';
      assert s[i + 1..i + 10] == h[1..];
      var t := s[i + 10 + |d|..i + 15 + |d|];
      assert AtomsMatch(p.tail, t) <==>
        t[0] == '<' && t[1] == '/' && t[2] == 'e' && t[3] == 'm' && t[4] == '>';
    }
  }
}
