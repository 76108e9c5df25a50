/**
 * A leftmost scanner for the two fixed regular expressions the regex-based
 * parsers use. Both have the shape `head (\d+) tail`, where head and tail are
 * sequences of single-character atoms (`\s` or a literal) and the tail starts
 * with a literal that is not a digit.
 */
module Scanner {
  import opened Wrappers
  import opened Numeric
  import opened Values

  datatype Atom = Space | Lit(c: char)

  /** RE2's `\s`: space, tab, newline, form feed, carriage return (not vertical tab). */
  predicate IsSpace(c: char)
  {
    c == ' ' || c == '\t' || c == '\n' || c == '\U{000C}' || c == '\r'
  }

  predicate AtomMatches(a: Atom, c: char)
  {
    match a
    case Space => IsSpace(c)
    case Lit(x) => c == x
  }

  predicate AtomsMatch(p: seq<Atom>, s: string)
  {
    |p| == |s| && forall k :: 0 <= k < |p| ==> AtomMatches(p[k], s[k])
  }

  /** The pattern `head (\d+) tail` (a lazy `\d+?` behaves the same here, see GroupIsDigitRun). */
  datatype Pattern = Pattern(head: seq<Atom>, tail: seq<Atom>)

  /** The tail begins with a non-digit literal, so the group can only be the whole digit run. */
  predicate WellFormed(p: Pattern)
  {
    |p.tail| > 0 && p.tail[0].Lit? && !IsDigit(p.tail[0].c)
  }

  /** What the regular expression means: it matches `s` at `i` with group `d`. */
  predicate MatchAt(p: Pattern, s: string, i: nat, d: string)
  {
    var j := i + |p.head|;
    var k := j + |d|;
    && k + |p.tail| <= |s|
    && AtomsMatch(p.head, s[i..j])
    && |d| > 0 && AllDigits(d)
    && s[j..k] == d
    && AtomsMatch(p.tail, s[k..k + |p.tail|])
  }

  /** The longest run of digits in `s` starting at `j`. */
  function DigitRun(s: string, j: nat): (d: string)
    requires j <= |s|
    ensures j + |d| <= |s| && s[j..j + |d|] == d && AllDigits(d)
    ensures j + |d| == |s| || !IsDigit(s[j + |d|])
    decreases |s| - j
  {
    if j < |s| && IsDigit(s[j]) then [s[j]] + DigitRun(s, j + 1) else []
  }

  /** A run of digits followed by a non-digit is the longest run. */
  lemma {:induction false} GroupIsDigitRun(s: string, j: nat, d: string)
    requires j + |d| < |s| && s[j..j + |d|] == d && AllDigits(d) && !IsDigit(s[j + |d|])
    ensures DigitRun(s, j) == d
    decreases |d|
  {
    if d != [] {
      assert s[j] == d[0];
      assert s[j + 1..j + 1 + |d[1..]|] == d[1..];
      GroupIsDigitRun(s, j + 1, d[1..]);
    }
  }

  /** At a given position the group of a match is determined: it is the digit run there. */
  lemma MatchGroupUnique(p: Pattern, s: string, i: nat, d: string)
    requires WellFormed(p) && MatchAt(p, s, i, d)
    ensures DigitRun(s, i + |p.head|) == d
  {
    var j := i + |p.head|;
    assert s[j + |d|] == s[j + |d|..j + |d| + |p.tail|][0];
    GroupIsDigitRun(s, j, d);
  }

  /** A match at `i` is exactly: the head matches, the digit run there is non-empty, and the tail follows it. */
  lemma MatchAtDigitRun(p: Pattern, s: string, i: nat, e: string)
    requires WellFormed(p)
    ensures MatchAt(p, s, i, e) <==>
      && i + |p.head| <= |s| && AtomsMatch(p.head, s[i..i + |p.head|])
      && e == DigitRun(s, i + |p.head|) && |e| > 0
      && i + |p.head| + |e| + |p.tail| <= |s|
      && AtomsMatch(p.tail, s[i + |p.head| + |e|..i + |p.head| + |e| + |p.tail|])
  {
    if MatchAt(p, s, i, e) {
      MatchGroupUnique(p, s, i, e);
    }
  }

  /** Tries the pattern at position `i` only. */
  function MatchHere(p: Pattern, s: string, i: nat): Option<string>
  {
    var j := i + |p.head|;
    if j <= |s| && AtomsMatch(p.head, s[i..j]) then
      var d := DigitRun(s, j);
      var k := j + |d|;
      if |d| > 0 && k + |p.tail| <= |s| && AtomsMatch(p.tail, s[k..k + |p.tail|]) then Some(d) else None
    else
      None
  }

  /** `MatchHere` finds the match at `i` when there is one, and only then. */
  lemma MatchHereCorrect(p: Pattern, s: string, i: nat)
    requires WellFormed(p)
    ensures MatchHere(p, s, i).Some? ==> MatchAt(p, s, i, MatchHere(p, s, i).value)
    ensures forall d :: MatchAt(p, s, i, d) ==> MatchHere(p, s, i) == Some(d)
  {
    forall e | MatchAt(p, s, i, e) ensures MatchHere(p, s, i) == Some(e) {
      MatchAtDigitRun(p, s, i, e);
    }
    if MatchHere(p, s, i).Some? {
      MatchAtDigitRun(p, s, i, MatchHere(p, s, i).value);
    }
  }

  /** Scans for the leftmost match at or after `from` (Go's FindStringSubmatch). */
  function Find(p: Pattern, s: string, from: nat): (r: Option<(nat, string)>)
    requires WellFormed(p)
    ensures r.Some? ==> from <= r.value.0 && MatchAt(p, s, r.value.0, r.value.1)
    ensures r.Some? ==> forall d :: MatchAt(p, s, r.value.0, d) ==> d == r.value.1
    ensures forall i, d :: from <= i && (r.None? || i < r.value.0) ==> !MatchAt(p, s, i, d)
    decreases |s| - from
  {
    if from >= |s| then None
    else
      MatchHereCorrect(p, s, from);
      match MatchHere(p, s, from)
      case Some(d) => Some((from, d))
      case None => Find(p, s, from + 1)
  }

  /** No match of `p` in `s` starts before `i`. */
  ghost predicate Leftmost(p: Pattern, s: string, i: nat)
  {
    forall j: nat, e :: j < i ==> !MatchAt(p, s, j, e)
  }

  /** The leftmost match is the one `Find` returns from the start. */
  lemma FindLeftmost(p: Pattern, s: string, i: nat, d: string)
    requires WellFormed(p) && MatchAt(p, s, i, d) && Leftmost(p, s, i)
    ensures Find(p, s, 0) == Some((i, d))
  {
    var r := Find(p, s, 0);
    assert r.Some?;
    assert MatchAt(p, s, r.value.0, r.value.1);
  }

  /** The error `strconv.Atoi` reports for a digit string beyond int64. */
  function RangeMessage(d: string): string
  {
    "strconv.Atoi: parsing \"" + d + "\": value out of range"
  }

  /**
   * The body of a regex-based parser: a failed body read is passed on; no
   * match gives count 0; otherwise the leftmost match's group is converted
   * with Atoi, whose range error is passed on.
   */
  function ParseCount(p: Pattern, body: Result<string>): (r: Result<Data>)
    requires WellFormed(p)
    ensures body.Failure? ==> r == Failure(body.error)
    ensures body.Success? && (forall i, d :: !MatchAt(p, body.value, i, d)) ==>
      r == Success(map["count" := Int(0)])
    ensures body.Success? ==> forall i, d :: MatchAt(p, body.value, i, d) && Leftmost(p, body.value, i) ==>
      r == if DecimalValue(d) <= MaxInt64 then Success(map["count" := Int(DecimalValue(d))])
           else Failure(RangeMessage(d))
    ensures r.Success? ==> r.value.Keys == {"count"}
  {
    match body
    case Failure(e) => Failure(e)
    case Success(text) =>
      match Find(p, text, 0)
      case None => Success(map["count" := Int(0)])
      case Some((i, d)) =>
        var n := Atoi(d);
        assert forall j, e :: MatchAt(p, text, j, e) && Leftmost(p, text, j) ==> j == i && e == d by {
          forall j, e | MatchAt(p, text, j, e) && Leftmost(p, text, j) ensures j == i && e == d {
            FindLeftmost(p, text, j, e);
          }
        }
        if n.err.Some? then Failure(RangeMessage(d)) else Success(map["count" := Int(n.value)])
  }
}
