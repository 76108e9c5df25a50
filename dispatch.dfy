/**
 * One platform dispatch (`doRequest`) and the origin resolution
 * (`resolveAndOpenGraph`), with the network and the platform parsers
 * abstracted into what they returned.
 */
module Dispatch {
  import opened Wrappers
  import opened Values
  import opened Platforms

  datatype Stat = Stat(name: string, data: Data)

  /** A message on one of the two channels: a stat or an error. */
  datatype Msg = StatMsg(stat: Stat) | ErrMsg(err: string)

  /**
   * What happened on the wire for one dispatch, and what the platform's
   * parser made of the response. Timings are the clock readings, in seconds.
   */
  datatype Exchange =
    | ClientFailed(err: string)       // buildClientAsync: the proxy URL did not parse
    | RequestFailed(err: string)      // http.NewRequest failed
    | TransportFailed(err: string)    // client.Do failed
    | Responded(status: int, statusText: string, parsed: Result<Data>, fetchedIn: real, completedIn: real)

  function StatusError(statusText: string, url: string): string
  {
    "Got non OK HTTP status at " + statusText + "-" + url
  }

  /** The successful stat: the parser's data stamped with both timings and named after the platform. */
  function Stamped(p: Platform, data: Data, fetchedIn: real, completedIn: real): (s: Stat)
    ensures s.name == p.name
    ensures s.data.Keys == data.Keys + {"fetched_in", "completed_in"}
    ensures s.data["fetched_in"] == Num(fetchedIn) && s.data["completed_in"] == Num(completedIn)
    ensures forall k :: k in data && k != "fetched_in" && k != "completed_in" ==> s.data[k] == data[k]
  {
    Stat(p.name, data["fetched_in" := Num(fetchedIn)]["completed_in" := Num(completedIn)])
  }

  /**
   * The messages `doRequest` sends, in order, as the source is written. A
   * failed request construction dereferences the nil request when setting
   * the User-Agent (before the error is checked), so it panics: excluded.
   * A non-200 status sends an error and then goes on to parse, so such a
   * response always sends two messages.
   */
  function DoRequest(p: Platform, lookupUrl: string, x: Exchange): (msgs: seq<Msg>)
    requires !x.RequestFailed?
    ensures 1 <= |msgs| <= 2
    ensures |msgs| == 2 <==> x.Responded? && x.status != 200
    ensures x.Responded? && x.status != 200 ==>
      msgs[0] == ErrMsg(StatusError(x.statusText, Substitute(p.statsUrl, lookupUrl)))
    ensures msgs[|msgs| - 1].StatMsg? <==> x.Responded? && x.parsed.Success?
    ensures x.Responded? && x.parsed.Success? ==>
      msgs[|msgs| - 1] == StatMsg(Stamped(p, x.parsed.value, x.fetchedIn, x.completedIn))
    ensures x.Responded? && x.parsed.Failure? ==> msgs[|msgs| - 1] == ErrMsg(x.parsed.error)
    ensures !x.Responded? ==> msgs == [ErrMsg(x.err)]
  {
    match x
    case ClientFailed(e) => [ErrMsg(e)]
    case TransportFailed(e) => [ErrMsg(e)]
    case Responded(status, statusText, parsed, fetchedIn, completedIn) =>
      var fullUrl := Substitute(p.statsUrl, lookupUrl);
      var first := if status != 200 then [ErrMsg(StatusError(statusText, fullUrl))] else [];
      match parsed
      case Failure(e) => first + [ErrMsg(e)]
      case Success(data) => first + [StatMsg(Stamped(p, data, fetchedIn, completedIn))]
  }

  /** The intended dispatch: a non-200 status is reported and nothing more is done. */
  function DoRequestFixed(p: Platform, lookupUrl: string, x: Exchange): (m: Msg)
    requires !x.RequestFailed?
    ensures m.StatMsg? <==> x.Responded? && x.status == 200 && x.parsed.Success?
    ensures m.StatMsg? ==> m.stat == Stamped(p, x.parsed.value, x.fetchedIn, x.completedIn)
  {
    match x
    case ClientFailed(e) => ErrMsg(e)
    case TransportFailed(e) => ErrMsg(e)
    case Responded(status, statusText, parsed, fetchedIn, completedIn) =>
      if status != 200 then ErrMsg(StatusError(statusText, Substitute(p.statsUrl, lookupUrl)))
      else match parsed
        case Failure(e) => ErrMsg(e)
        case Success(data) => StatMsg(Stamped(p, data, fetchedIn, completedIn))
  }

  /** Whenever the status is 200 (or there is no response) the source already sends exactly the intended message. */
  lemma FixedAgreesOnOk(p: Platform, lookupUrl: string, x: Exchange)
    requires !x.RequestFailed? && !(x.Responded? && x.status != 200)
    ensures DoRequest(p, lookupUrl, x) == [DoRequestFixed(p, lookupUrl, x)]
  {
  }

  /**
   * What the origin fetch did: the redirects it followed (each reported to
   * the CheckRedirect hook, in order) and how it ended.
   */
  datatype OriginExchange =
    | OriginClientFailed(err: string)
    | OriginRequestFailed(err: string)
    | OriginTransportFailed(redirects: seq<string>, err: string)
    | OriginResponded(redirects: seq<string>, status: int, statusText: string,
                      parsed: Result<Data>, fetchedIn: real, completedIn: real)

  function Redirects(x: OriginExchange): seq<string>
  {
    if x.OriginTransportFailed? || x.OriginResponded? then x.redirects else []
  }

  /** The redirect chain: the requested URL, then every redirect target in visit order. */
  function Chain(url: string, x: OriginExchange): (urls: seq<string>)
    ensures |urls| >= 1 && urls[0] == url
  {
    [url] + Redirects(x)
  }

  /** The URL every platform is dispatched against: the end of the chain, also when resolution failed. */
  function Resolved(url: string, x: OriginExchange): string
  {
    Chain(url, x)[|Chain(url, x)| - 1]
  }

  /** The resolved URL is the last redirect target, or the URL itself when nothing redirected. */
  lemma ResolvedIsLastHop(url: string, x: OriginExchange)
    ensures Redirects(x) == [] ==> Resolved(url, x) == url
    ensures Redirects(x) != [] ==> Resolved(url, x) == Redirects(x)[|Redirects(x)| - 1]
  {
  }

  /** Resolution succeeds only on a 200 answer whose page metadata parsed. */
  predicate OriginOk(x: OriginExchange)
  {
    x.OriginResponded? && x.status == 200 && x.parsed.Success?
  }

  /** The origin stat on success: metadata, both timings, and the whole chain under `urls`. */
  function OriginData(url: string, x: OriginExchange): (d: Data)
    requires OriginOk(x)
    ensures d.Keys == x.parsed.value.Keys + {"fetched_in", "completed_in", "urls"}
    ensures d["urls"] == Strings(Chain(url, x))
    ensures d["fetched_in"] == Num(x.fetchedIn) && d["completed_in"] == Num(x.completedIn)
  {
    x.parsed.value["fetched_in" := Num(x.fetchedIn)]["completed_in" := Num(x.completedIn)]["urls" := Strings(Chain(url, x))]
  }

  /** The page metadata survives in the origin stat, except under the three keys the stat sets. */
  lemma OriginDataKeepsMetadata(url: string, x: OriginExchange, k: string)
    requires OriginOk(x) && k in x.parsed.value && k != "fetched_in" && k != "completed_in" && k != "urls"
    ensures OriginData(url, x)[k] == x.parsed.value[k]
  {
  }

  /**
   * `resolveAndOpenGraph`. The chain starts with the URL and the redirect
   * hook appends each target. Every failure is returned as an error; a
   * non-200 status names the original URL.
   */
  method ResolveAndOpenGraph(url: string, x: OriginExchange) returns (stat: Stat, urls: seq<string>, err: Option<string>)
    requires !x.OriginRequestFailed?
    ensures urls == Chain(url, x)
    ensures err.None? <==> OriginOk(x)
    ensures err.None? ==> stat == Stat("origin", OriginData(url, x))
    ensures x.OriginClientFailed? || x.OriginTransportFailed? ==> err == Some(x.err)
    ensures x.OriginResponded? && x.status != 200 ==> err == Some(StatusError(x.statusText, url))
    ensures x.OriginResponded? && x.status == 200 && x.parsed.Failure? ==> err == Some(x.parsed.error)
  {
    stat := Stat("origin", map[]);
    err := None;
    urls := [url];
    if x.OriginClientFailed? {
      err := Some(x.err);
      return;
    }
    // client.Do follows the redirects; the hook records each one.
    var hops := Redirects(x);
    var i := 0;
    while i < |hops|
      invariant 0 <= i <= |hops|
      invariant urls == [url] + hops[..i]
    {
      urls := urls + [hops[i]];
      assert hops[..i + 1] == hops[..i] + [hops[i]];
      i := i + 1;
    }
    assert hops[..i] == hops;
    if x.OriginTransportFailed? {
      err := Some(x.err);
      return;
    }
    if x.status != 200 {
      err := Some(StatusError(x.statusText, url));
      return;
    }
    if x.parsed.Failure? {
      err := Some(x.parsed.error);
      return;
    }
    var data := x.parsed.value;
    data := data["fetched_in" := Num(x.fetchedIn)];
    data := data["completed_in" := Num(x.completedIn)];
    data := data["urls" := Strings(urls)];
    stat := Stat("origin", data);
  }
}
