/** The Google+ share-button parser: `\s\{c:\s(\d+?)\.` over the response body. */
module GooglePlus {
  import opened Wrappers
  import opened Numeric
  import opened Values
  import opened Scanner

  const GooglePlusPattern: Pattern :=
    Pattern([Space, Lit('{'), Lit('c'), Lit(':'), Space], [Lit('.')])

  /** `GooglePlus().parseWith`, from the result of reading the body. */
  function GooglePlus(body: Result<string>): (r: Result<Data>)
    ensures body.Failure? ==> r == Failure(body.error)
    ensures body.Success? && (forall i, d :: !MatchAt(GooglePlusPattern, body.value, i, d)) ==>
      r == Success(map["count" := Int(0)])
    ensures body.Success? ==> forall i, d :: MatchAt(GooglePlusPattern, body.value, i, d) && Leftmost(GooglePlusPattern, body.value, i) ==>
      r == if DecimalValue(d) <= MaxInt64 then Success(map["count" := Int(DecimalValue(d))])
           else Failure(RangeMessage(d))
    ensures r.Success? ==> r.value.Keys == {"count"}
  {
    ParseCount(GooglePlusPattern, body)
  }

  /**
   * The pattern read back as text: whitespace, `{c:`, whitespace, a non-empty
   * run of digits, then a dot.
   */
  lemma GooglePlusPatternMeaning(s: string, i: nat, d: string)
    ensures MatchAt(GooglePlusPattern, s, i, d) <==>
      && i + 5 + |d| < |s|
      && IsSpace(s[i]) && s[i + 1..i + 4] == "{c:" && IsSpace(s[i + 4])
      && |d| > 0 && AllDigits(d) && s[i + 5..i + 5 + |d|] == d
      && s[i + 5 + |d|] == '.'
  {
    var p := GooglePlusPattern;
    if i + 5 + |d| < |s| {
      var h := s[i..i + 5];
      assert AtomsMatch(p.head, h) <==>
        IsSpace(h[0]) && h[1] == '{' && h[2] == 'c' && h[3] == ':' && IsSpace(h[4]);
      assert s[i + 1..i + 4] == h[1..4];
      assert s[i + 5 + |d|..i + 5 + |d| + 1] == [s[i + 5 + |d|]];
    }
  }

  /** A typical button payload yields its count as an int. */
  lemma GooglePlusExample()
    ensures GooglePlus(Success(" {c: 7.0}")) == Success(map["count" := Int(7)])
  {
    var s := " {c: 7.0}";
    GooglePlusPatternMeaning(s, 0, "7");
    assert s[1..4] == "{c:" && s[5..6] == "7";
    assert MatchAt(GooglePlusPattern, s, 0, "7");
    assert Leftmost(GooglePlusPattern, s, 0);
    assert DecimalValue("7") == 7 by { assert "7"[..0] == []; }
  }
}
