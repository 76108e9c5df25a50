/**
 * The platform table and the choice of which platforms a run dispatches:
 * selection normalisation, `canRunPlatform`, and the URL template.
 */
module Platforms {
  import opened Wrappers
  import opened Numeric

  /** A platform descriptor (its parser is modelled separately, per platform). */
  datatype Platform = Platform(enabled: bool, name: string, statsUrl: string, format: string)

  const FacebookPlatform := Platform(true, "facebook", "https://api.facebook.com/method/links.getStats?format=json&urls=%s", "")
  const LinkedinPlatform := Platform(true, "linkedin", "http://www.linkedin.com/countserv/count/share?url=%s", "jsonp")
  const GooglePlusPlatform := Platform(true, "google_plus", "https://plusone.google.com/_/+1/fastbutton?url=%s", "")
  const RedditPlatform := Platform(true, "reddit", "https://www.reddit.com/api/info.json?&url=%s", "")
  const BufferPlatform := Platform(true, "buffer", "https://api.bufferapp.com/1/links/shares.json?url=%s", "")
  const StumbleuponPlatform := Platform(true, "stumbleupon", "http://www.stumbleupon.com/services/1.01/badge.getinfo?url=%s", "")
  const PocketPlatform := Platform(true, "pocket", "https://widgets.getpocket.com/v1/button?count=vertical&url=%s", "")
  const TumblrPlatform := Platform(true, "tumblr", "http://api.tumblr.com/v2/share/stats?url=%s", "json")
  const OriginPlatform := Platform(true, "origin", "%s", "")

  /** The platform table in its declared order; the origin descriptor is last. */
  const Table: seq<Platform> := [
    FacebookPlatform, LinkedinPlatform, GooglePlusPlatform, RedditPlatform, BufferPlatform,
    StumbleuponPlatform, PocketPlatform, TumblrPlatform, OriginPlatform
  ]

  /**
   * Names identify platforms, and none collides with the keys the report
   * adds (`meta`, `errors`).
   */
  predicate NamesOk(table: seq<Platform>)
  {
    && (forall i, j :: 0 <= i < |table| && 0 <= j < |table| && table[i].name == table[j].name ==> i == j)
    && (forall i :: 0 <= i < |table| ==> table[i].name != "meta" && table[i].name != "errors")
  }

  /** The origin descriptor is the last entry and the only one named `origin`. */
  lemma TableOriginLast()
    ensures Table[|Table| - 1] == OriginPlatform
    ensures forall i :: 0 <= i < |Table| - 1 ==> Table[i].name != "origin"
  {
    assert forall i :: 0 <= i < |Table| - 1 ==> Table[i].name[0] != 'o';
  }

  /** The initials of the table's names, in table order. */
  const Initials := "flgrbspto"

  lemma InitialsDiffer(i: nat, j: nat)
    requires i < j < |Initials|
    ensures Initials[i] != Initials[j]
  {
  }

  lemma TableInitials()
    ensures forall i :: 0 <= i < |Table| ==> |Table[i].name| > 0 && Table[i].name[0] == Initials[i]
  {
  }

  lemma TableNamesOk()
    ensures NamesOk(Table)
  {
    // The first letters of the names already differ.
    TableInitials();
    forall i, j | 0 <= i < |Table| && 0 <= j < |Table| && Table[i].name == Table[j].name
      ensures i == j
    {
      assert Initials[i] == Initials[j];
      if i < j { InitialsDiffer(i, j); } else if j < i { InitialsDiffer(j, i); }
    }
    forall i | 0 <= i < |Table| ensures Table[i].name != "meta" && Table[i].name != "errors" {
      assert Table[i].name[0] == Initials[i];
    }
  }

  lemma IndexIn(table: seq<Platform>, p: Platform) returns (i: nat)
    requires p in table
    ensures i < |table| && table[i] == p
  {
    i :| 0 <= i < |table| && table[i] == p;
  }

  /**
   * New's normalisation of the selection: nil (`None`) or `[""]` becomes the
   * empty list, and `origin` is appended in every case.
   */
  function Normalize(selected: Option<seq<string>>): (r: seq<string>)
    ensures |r| >= 1 && r[|r| - 1] == "origin"
    ensures selected.None? || selected.value == [""] ==> r == ["origin"]
    ensures selected.Some? && selected.value != [""] ==> r[..|r| - 1] == selected.value
  {
    var s := if selected.None? || selected.value == [""] then [] else selected.value;
    s + ["origin"]
  }

  /**
   * Which platforms `canRunPlatform` admits: never origin, never a disabled
   * one; a list of length one (only the appended origin) admits every other
   * platform, a longer list only the platforms it names.
   */
  predicate Admitted(p: Platform, selected: seq<string>)
  {
    p.name != "origin" && p.enabled && (|selected| == 1 || p.name in selected)
  }

  /** `canRunPlatform`, with its search loop over the selection. */
  method CanRunPlatform(p: Platform, selected: seq<string>) returns (canRun: bool)
    ensures canRun == Admitted(p, selected)
  {
    canRun := false;
    if p.name == "origin" {
      return false;
    }
    if !p.enabled {
      return false;
    }
    if |selected| == 1 {
      return true;
    }
    var i := 0;
    while i < |selected|
      invariant 0 <= i <= |selected|
      invariant p.name !in selected[..i]
    {
      if p.name == selected[i] && p.enabled {
        canRun := true;
        return true;
      }
      assert selected[..i + 1] == selected[..i] + [selected[i]];
      i := i + 1;
    }
    assert selected[..i] == selected;
  }

  /** The admitted platforms of `table`, in table order. */
  function Applicable(table: seq<Platform>, selected: seq<string>): seq<Platform>
  {
    if table == [] then []
    else
      var p := table[|table| - 1];
      Applicable(table[..|table| - 1], selected) + (if Admitted(p, selected) then [p] else [])
  }

  /** A platform is dispatched exactly when it is in the table and admitted. */
  lemma {:induction false} ApplicableMembers(table: seq<Platform>, selected: seq<string>, p: Platform)
    ensures p in Applicable(table, selected) <==> p in table && Admitted(p, selected)
  {
    if table != [] {
      var init := table[..|table| - 1];
      ApplicableMembers(init, selected, p);
      assert table == init + [table[|table| - 1]];
    }
  }

  /** An absent or empty selection dispatches every enabled platform except origin. */
  lemma EmptySelectionRunsAll(table: seq<Platform>, selected: Option<seq<string>>, p: Platform)
    requires selected.None? || selected.value == [""] || selected.value == []
    ensures p in Applicable(table, Normalize(selected)) <==> p in table && p.enabled && p.name != "origin"
  {
    ApplicableMembers(table, Normalize(selected), p);
  }

  /** A non-empty selection dispatches exactly the enabled platforms it names, never origin. */
  lemma NamedSelectionRunsNamed(table: seq<Platform>, selected: seq<string>, p: Platform)
    requires |selected| >= 1 && selected != [""]
    ensures p in Applicable(table, Normalize(Some(selected))) <==>
      p in table && p.enabled && p.name != "origin" && p.name in selected
  {
    var n := Normalize(Some(selected));
    assert n == selected + ["origin"];
    ApplicableMembers(table, n, p);
  }

  /** New's dispatch loop: one dispatch per admitted platform, counted. */
  method DispatchAll(table: seq<Platform>, selected: seq<string>) returns (dispatched: seq<Platform>, taskCount: int)
    ensures dispatched == Applicable(table, selected)
    ensures taskCount == |dispatched|
  {
    dispatched, taskCount := [], 0;
    var i := 0;
    while i < |table|
      invariant 0 <= i <= |table|
      invariant dispatched == Applicable(table[..i], selected)
      invariant taskCount == |dispatched|
    {
      var platform := table[i];
      assert table[..i + 1][..i] == table[..i];
      var canRun := CanRunPlatform(platform, selected);
      if canRun {
        dispatched := dispatched + [platform];
        taskCount := taskCount + 1;
      }
      i := i + 1;
    }
    assert table[..i] == table;
  }

  /** A `%s` verb starts at position `j` of `t`. */
  predicate IsVerbAt(t: string, j: int)
  {
    0 <= j && j + 1 < |t| && t[j] == '%' && t[j + 1] == 's'
  }

  /** The position of the first `%s` of `t` at or after `k`. */
  function FirstVerb(t: string, k: nat): (r: Option<nat>)
    ensures r.Some? ==> k <= r.value && IsVerbAt(t, r.value)
    ensures forall j :: k <= j && (r.None? || j < r.value) ==> !IsVerbAt(t, j)
    decreases |t| - k
  {
    if k + 1 >= |t| then None
    else if IsVerbAt(t, k) then Some(k)
    else FirstVerb(t, k + 1)
  }

  /**
   * `fmt.Sprintf(template, url)` for a template whose only verb is `%s`:
   * the first `%s` is replaced by the URL; without one, Go appends the
   * unused argument as `%!(EXTRA string=...)`.
   */
  function Substitute(template: string, url: string): (r: string)
    ensures FirstVerb(template, 0).Some? ==>
      var i := FirstVerb(template, 0).value;
      && |r| == |template| - 2 + |url|
      && r[..i] == template[..i] && r[i..i + |url|] == url && r[i + |url|..] == template[i + 2..]
    ensures FirstVerb(template, 0).None? ==> r == template + "%!(EXTRA string=" + url + ")"
  {
    match FirstVerb(template, 0)
    case Some(i) => template[..i] + url + template[i + 2..]
    case None => template + "%!(EXTRA string=" + url + ")"
  }

  /** Recovers the URL from a request URL built from `template`. */
  function ExtractUrl(template: string, full: string): Option<string>
  {
    match FirstVerb(template, 0)
    case None => None
    case Some(i) =>
      var tail := template[i + 2..];
      if |full| >= i + |tail| && full[..i] == template[..i] && full[|full| - |tail|..] == tail
      then Some(full[i..|full| - |tail|])
      else None
  }

  /** Substitution keeps the template around the URL, so the URL can be read back. */
  lemma SubstituteRoundTrip(template: string, url: string)
    requires FirstVerb(template, 0).Some?
    ensures ExtractUrl(template, Substitute(template, url)) == Some(url)
  {
    var i := FirstVerb(template, 0).value;
    var full := Substitute(template, url);
    var tail := template[i + 2..];
    assert full[..i] == template[..i];
    assert full[|full| - |tail|..] == tail;
    assert full[i..|full| - |tail|] == url;
  }

  /** The headers a dispatch sets: a User-Agent with a numeric suffix, and the platform's format. */
  datatype Request = Request(url: string, userAgent: string, contentType: Option<string>)

  /**
   * The request `doRequest` builds. The suffix is `rand.Intn(1000)`; joining
   * with a space after a prefix that already ends in one leaves two spaces.
   * The Content-Type header carries the format name itself (`json`, `jsonp`).
   */
  function RequestFor(p: Platform, lookupUrl: string, suffix: nat): (r: Request)
    requires suffix < 1000
    ensures r.url == Substitute(p.statsUrl, lookupUrl)
    ensures r.userAgent == "Mozilla/5.0 (socol)  " + NatDigits(suffix)
    ensures r.contentType.Some? <==> p.format != ""
    ensures r.contentType.Some? ==> r.contentType.value == p.format
  {
    Request(Substitute(p.statsUrl, lookupUrl), "Mozilla/5.0 (socol) " + " " + IntToString(suffix),
            if p.format != "" then Some(p.format) else None)
  }
}
