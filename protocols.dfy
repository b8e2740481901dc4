/**
 * `switchProtocols` and `isCompatibleUri` of the URL loader
 * (packages/loaders/url/src/index.ts).
 */
module Protocols {
  import opened Wrappers
  import opened JsString

  /** A protocol map as `Object.entries` lists it: (source, target) pairs in insertion order. */
  type ProtocolMap = seq<(string, string)>

  /** The map `buildHTTPExecutor` uses: `{ wss: 'https', ws: 'http' }`. */
  const WsToHttp: ProtocolMap := [("wss", "https"), ("ws", "http")]

  /** The map `buildWSExecutor` and `buildWSLegacyExecutor` use: `{ https: 'wss', http: 'ws' }`. */
  const HttpToWs: ProtocolMap := [("https", "wss"), ("http", "ws")]

  function SlashPattern(protocol: string): string {
    protocol + "://"
  }

  /** `${protocol}:\` — one backslash. */
  function BackslashPattern(protocol: string): string {
    protocol + ":\\"
  }

  /** One step of the fold: the first `src://` and then the first `src:\` are rewritten. */
  function SwitchEntry(s: string, entry: (string, string)): string {
    ReplaceFirst(
      ReplaceFirst(s, SlashPattern(entry.0), SlashPattern(entry.1)),
      BackslashPattern(entry.0), BackslashPattern(entry.1))
  }

  /** `s` holds none of the patterns the entries of `m` look for. */
  predicate FreeOf(s: string, m: ProtocolMap) {
    forall k :: 0 <= k < |m| ==>
      !Contains(s, SlashPattern(m[k].0)) && !Contains(s, BackslashPattern(m[k].0))
  }

  lemma SwitchEntryFree(s: string, e: (string, string))
    requires !Contains(s, SlashPattern(e.0)) && !Contains(s, BackslashPattern(e.0))
    ensures SwitchEntry(s, e) == s
  {
    ReplaceFirstAbsent(s, SlashPattern(e.0), SlashPattern(e.1));
    ReplaceFirstAbsent(s, BackslashPattern(e.0), BackslashPattern(e.1));
  }

  /**
   * `switchProtocols(pointer, protocolMap)`: a left fold of `SwitchEntry` over
   * the entries, in map order.
   */
  function SwitchProtocols(pointer: string, protocolMap: ProtocolMap): string
    decreases |protocolMap|
  {
    if protocolMap == [] then pointer
    else SwitchProtocols(SwitchEntry(pointer, protocolMap[0]), protocolMap[1..])
  }

  /** A pointer without any source pattern of the map comes back unchanged. */
  lemma {:induction false} SwitchProtocolsFree(pointer: string, protocolMap: ProtocolMap)
    requires FreeOf(pointer, protocolMap)
    ensures SwitchProtocols(pointer, protocolMap) == pointer
    decreases |protocolMap|
  {
    if protocolMap != [] {
      SwitchEntryFree(pointer, protocolMap[0]);
      assert forall k :: 0 <= k < |protocolMap| - 1 ==> protocolMap[1..][k] == protocolMap[k + 1];
      SwitchProtocolsFree(pointer, protocolMap[1..]);
    }
  }

  /** The fold over two maps in a row is the fold over their concatenation: entries apply in map order. */
  lemma {:induction false} SwitchProtocolsAppend(s: string, m1: ProtocolMap, m2: ProtocolMap)
    ensures SwitchProtocols(s, m1 + m2) == SwitchProtocols(SwitchProtocols(s, m1), m2)
    decreases |m1|
  {
    if m1 != [] {
      assert (m1 + m2)[0] == m1[0] && (m1 + m2)[1..] == m1[1..] + m2;
      SwitchProtocolsAppend(SwitchEntry(s, m1[0]), m1[1..], m2);
    } else {
      assert m1 + m2 == m2;
    }
  }

  /** The fold over a two-entry map is two steps. */
  lemma SwitchPair(s: string, e0: (string, string), e1: (string, string))
    ensures SwitchProtocols(s, [e0, e1]) == SwitchEntry(SwitchEntry(s, e0), e1)
  {
    assert [e0, e1][1..] == [e1];
    assert [e1][1..] == [];
    assert SwitchProtocols(s, [e0, e1]) == SwitchProtocols(SwitchEntry(s, e0), [e1]);
    assert SwitchProtocols(SwitchEntry(s, e0), [e1]) == SwitchProtocols(SwitchEntry(SwitchEntry(s, e0), e1), []);
  }

  /** No pattern looking for `source` can start inside `p`. */
  predicate ScreensSource(p: string, source: string) {
    Screens(p, SlashPattern(source)) && Screens(p, BackslashPattern(source))
  }

  /** No pattern of entry `e` can start inside `p`. */
  predicate ScreensEntry(p: string, e: (string, string)) {
    ScreensSource(p, e.0)
  }

  /** A `x://` prefix screens every source whose first character is neither in `x` nor in `://`. */
  lemma ScreensByInitial(x: string, source: string)
    requires source != [] && source[0] !in x && source[0] !in "://"
    ensures ScreensSource(SlashPattern(x), source)
  {
    assert source[0] !in SlashPattern(x);
    ScreensByFirstChar(SlashPattern(x), SlashPattern(source));
    ScreensByFirstChar(SlashPattern(x), BackslashPattern(source));
  }

  /**
   * A `x://` prefix screens a longer source `x + y`: the two differ where `y` starts,
   * and no later position of `x://` holds the first character of `x`.
   */
  lemma ScreensByExtension(x: string, y: string)
    requires x != [] && y != [] && y[0] != ':' && x[0] !in x[1..] && x[0] !in "://"
    ensures ScreensSource(SlashPattern(x), x + y)
  {
    var p := SlashPattern(x);
    assert SlashPattern(x + y) == x + (y + "://");
    assert BackslashPattern(x + y) == x + (y + ":\\");
    DivergesAfterCommonPrefix(x, "://", y + "://");
    DivergesAfterCommonPrefix(x, "://", y + ":\\");
    assert p[1..] == x[1..] + "://";
    assert x[0] !in p[1..];
    ScreensByFirstChar(p[1..], SlashPattern(x + y));
    ScreensByFirstChar(p[1..], BackslashPattern(x + y));
  }

  /** A prefix that screens an entry goes through its step untouched. */
  lemma SwitchEntryScreened(p: string, t: string, e: (string, string))
    requires ScreensEntry(p, e)
    ensures SwitchEntry(p + t, e) == p + SwitchEntry(t, e)
  {
    ScreensNoMatch(p, t, SlashPattern(e.0));
    ReplaceFirstAfterPrefix(p, t, SlashPattern(e.0), SlashPattern(e.1));
    var t1 := ReplaceFirst(t, SlashPattern(e.0), SlashPattern(e.1));
    ScreensNoMatch(p, t1, BackslashPattern(e.0));
    ReplaceFirstAfterPrefix(p, t1, BackslashPattern(e.0), BackslashPattern(e.1));
  }

  /** A pointer that starts with `src://` gets `target://` in front. */
  lemma SwitchEntryHit(e: (string, string), t: string)
    requires Screens(SlashPattern(e.1), BackslashPattern(e.0))
    ensures SwitchEntry(SlashPattern(e.0) + t, e) ==
      SlashPattern(e.1) + ReplaceFirst(t, BackslashPattern(e.0), BackslashPattern(e.1))
  {
    ReplaceFirstAtStart(SlashPattern(e.0), SlashPattern(e.1), t);
    ScreensNoMatch(SlashPattern(e.1), t, BackslashPattern(e.0));
    ReplaceFirstAfterPrefix(SlashPattern(e.1), t, BackslashPattern(e.0), BackslashPattern(e.1));
  }

  /** The scheme in front of a two-entry fold when the first entry rewrites it. */
  lemma SwitchPairFirstHit(e0: (string, string), e1: (string, string), t: string)
    requires Screens(SlashPattern(e0.1), BackslashPattern(e0.0)) && ScreensEntry(SlashPattern(e0.1), e1)
    ensures SwitchProtocols(SlashPattern(e0.0) + t, [e0, e1]) ==
      SlashPattern(e0.1) + SwitchEntry(ReplaceFirst(t, BackslashPattern(e0.0), BackslashPattern(e0.1)), e1)
  {
    SwitchPair(SlashPattern(e0.0) + t, e0, e1);
    SwitchEntryHit(e0, t);
    SwitchEntryScreened(SlashPattern(e0.1), ReplaceFirst(t, BackslashPattern(e0.0), BackslashPattern(e0.1)), e1);
  }

  /** The scheme in front of a two-entry fold when the second entry rewrites it. */
  lemma SwitchPairSecondHit(e0: (string, string), e1: (string, string), t: string)
    requires ScreensEntry(SlashPattern(e1.0), e0) && Screens(SlashPattern(e1.1), BackslashPattern(e1.0))
    ensures SwitchProtocols(SlashPattern(e1.0) + t, [e0, e1]) ==
      SlashPattern(e1.1) + ReplaceFirst(SwitchEntry(t, e0), BackslashPattern(e1.0), BackslashPattern(e1.1))
  {
    SwitchPair(SlashPattern(e1.0) + t, e0, e1);
    SwitchEntryScreened(SlashPattern(e1.0), t, e0);
    SwitchEntryHit(e1, SwitchEntry(t, e0));
  }

  /** A prefix that screens both entries is kept in front of the fold. */
  lemma SwitchPairMiss(p: string, e0: (string, string), e1: (string, string), t: string)
    requires ScreensEntry(p, e0) && ScreensEntry(p, e1)
    ensures SwitchProtocols(p + t, [e0, e1]) == p + SwitchProtocols(t, [e0, e1])
  {
    SwitchPair(p + t, e0, e1);
    SwitchEntryScreened(p, t, e0);
    SwitchEntryScreened(p, SwitchEntry(t, e0), e1);
    SwitchPair(t, e0, e1);
  }

  /** The four schemes the loader accepts, with the `://` authority separator. */
  datatype WebScheme = Http | Https | Ws | Wss {
    function Name(): string {
      match this
      case Http => "http"
      case Https => "https"
      case Ws => "ws"
      case Wss => "wss"
    }

    predicate IsWebSocket() {
      this == Ws || this == Wss
    }

    predicate IsSecure() {
      this == Https || this == Wss
    }

    /** The scheme `WsToHttp` turns this one into. */
    function AsHttp(): (r: WebScheme)
      ensures !r.IsWebSocket() && r.IsSecure() == IsSecure()
    {
      match this
      case Ws => Http
      case Wss => Https
      case _ => this
    }

    /** The scheme `HttpToWs` turns this one into. */
    function AsWs(): (r: WebScheme)
      ensures r.IsWebSocket() && r.IsSecure() == IsSecure()
    {
      match this
      case Http => Ws
      case Https => Wss
      case _ => this
    }
  }

  /** `scheme://rest` */
  function Url(scheme: WebScheme, rest: string): string {
    SlashPattern(scheme.Name()) + rest
  }

  /**
   * Under `WsToHttp` every accepted scheme ends as its HTTP counterpart,
   * whatever follows it; a rest free of the map's patterns is kept.
   */
  lemma SwitchToHttp(scheme: WebScheme, rest: string)
    ensures StartsWith(SwitchProtocols(Url(scheme, rest), WsToHttp), SlashPattern(scheme.AsHttp().Name()))
    ensures FreeOf(rest, WsToHttp) ==> SwitchProtocols(Url(scheme, rest), WsToHttp) == Url(scheme.AsHttp(), rest)
  {
    var e0, e1 := ("wss", "https"), ("ws", "http");
    assert WsToHttp == [e0, e1];
    match scheme
    case Wss =>
      ScreensByInitial("https", "wss");
      ScreensByInitial("https", "ws");
      SwitchPairFirstHit(e0, e1, rest);
      if FreeOf(rest, WsToHttp) {
        assert WsToHttp[0] == e0 && WsToHttp[1] == e1;
        ReplaceFirstAbsent(rest, BackslashPattern(e0.0), BackslashPattern(e0.1));
        SwitchEntryFree(rest, e1);
      }
    case Ws =>
      assert "ws" + "s" == "wss";
      ScreensByExtension("ws", "s");
      ScreensByInitial("http", "ws");
      SwitchPairSecondHit(e0, e1, rest);
      if FreeOf(rest, WsToHttp) {
        assert WsToHttp[0] == e0 && WsToHttp[1] == e1;
        SwitchEntryFree(rest, e0);
        ReplaceFirstAbsent(rest, BackslashPattern(e1.0), BackslashPattern(e1.1));
      }
    case Http =>
      ScreensByInitial("http", "wss");
      ScreensByInitial("http", "ws");
      SwitchPairMiss(SlashPattern("http"), e0, e1, rest);
      if FreeOf(rest, WsToHttp) {
        SwitchProtocolsFree(rest, WsToHttp);
      }
    case Https =>
      ScreensByInitial("https", "wss");
      ScreensByInitial("https", "ws");
      SwitchPairMiss(SlashPattern("https"), e0, e1, rest);
      if FreeOf(rest, WsToHttp) {
        SwitchProtocolsFree(rest, WsToHttp);
      }
  }

  /**
   * Under `HttpToWs` every accepted scheme ends as its WebSocket counterpart,
   * whatever follows it; a rest free of the map's patterns is kept.
   */
  lemma SwitchToWs(scheme: WebScheme, rest: string)
    ensures StartsWith(SwitchProtocols(Url(scheme, rest), HttpToWs), SlashPattern(scheme.AsWs().Name()))
    ensures FreeOf(rest, HttpToWs) ==> SwitchProtocols(Url(scheme, rest), HttpToWs) == Url(scheme.AsWs(), rest)
  {
    var e0, e1 := ("https", "wss"), ("http", "ws");
    assert HttpToWs == [e0, e1];
    match scheme
    case Https =>
      ScreensByInitial("wss", "https");
      ScreensByInitial("wss", "http");
      SwitchPairFirstHit(e0, e1, rest);
      if FreeOf(rest, HttpToWs) {
        assert HttpToWs[0] == e0 && HttpToWs[1] == e1;
        ReplaceFirstAbsent(rest, BackslashPattern(e0.0), BackslashPattern(e0.1));
        SwitchEntryFree(rest, e1);
      }
    case Http =>
      assert "http" + "s" == "https";
      ScreensByExtension("http", "s");
      ScreensByInitial("ws", "http");
      SwitchPairSecondHit(e0, e1, rest);
      if FreeOf(rest, HttpToWs) {
        assert HttpToWs[0] == e0 && HttpToWs[1] == e1;
        SwitchEntryFree(rest, e0);
        ReplaceFirstAbsent(rest, BackslashPattern(e1.0), BackslashPattern(e1.1));
      }
    case Ws =>
      ScreensByInitial("ws", "https");
      ScreensByInitial("ws", "http");
      SwitchPairMiss(SlashPattern("ws"), e0, e1, rest);
      if FreeOf(rest, HttpToWs) {
        SwitchProtocolsFree(rest, HttpToWs);
      }
    case Wss =>
      ScreensByInitial("wss", "https");
      ScreensByInitial("wss", "http");
      SwitchPairMiss(SlashPattern("wss"), e0, e1, rest);
      if FreeOf(rest, HttpToWs) {
        SwitchProtocolsFree(rest, HttpToWs);
      }
  }

  /**
   * Switching to WebSocket and back lands where switching to HTTP directly
   * does; an `http://` or `https://` URL is restored exactly.
   */
  lemma SwitchRoundTrip(scheme: WebScheme, rest: string)
    requires FreeOf(rest, WsToHttp) && FreeOf(rest, HttpToWs)
    ensures SwitchProtocols(SwitchProtocols(Url(scheme, rest), HttpToWs), WsToHttp) == Url(scheme.AsHttp(), rest)
    ensures !scheme.IsWebSocket() ==>
      SwitchProtocols(SwitchProtocols(Url(scheme, rest), HttpToWs), WsToHttp) == Url(scheme, rest)
  {
    SwitchToWs(scheme, rest);
    SwitchToHttp(scheme.AsWs(), rest);
  }

  /** `acceptableProtocols` */
  const AcceptableProtocols: seq<string> := ["http:", "https:", "ws:", "wss:"]

  /** `acceptableProtocols.some(protocol => uri.startsWith(protocol))` */
  predicate HasAcceptableProtocol(uri: string) {
    exists i :: 0 <= i < |AcceptableProtocols| && StartsWith(uri, AcceptableProtocols[i])
  }

  /**
   * `isCompatibleUri(uri)`: an accepted protocol in front, then the `is-url`
   * check, which is not part of this model and is taken as a parameter.
   */
  function IsCompatibleUri(uri: string, isUrl: string -> bool): bool {
    HasAcceptableProtocol(uri) && isUrl(uri)
  }

  /** The scheme of a URI: the text before its first `:`. */
  function SchemeOf(uri: string): Option<string> {
    match IndexOf(uri, ":")
    case None => None
    case Some(i) => Some(uri[..i])
  }

  /** A URI starting with `x:` where `x` holds no `:` has its first `:` right after `x`. */
  lemma FirstColon(uri: string, x: string)
    requires StartsWith(uri, x + ":") && ':' !in x
    ensures IndexOf(uri, ":") == Some(|x|)
  {
    assert uri[|x|..][..1] == ":";
    assert MatchesAt(uri, ":", |x|);
    forall j: nat | j < |x|
      ensures !MatchesAt(uri, ":", j)
    {
      assert uri[j] == x[j];
    }
  }

  /** The scheme of a URI is `x` exactly when it starts with `x:` and `x` holds no `:`. */
  lemma SchemeOfPrefix(uri: string, x: string)
    requires ':' !in x
    ensures SchemeOf(uri) == Some(x) <==> StartsWith(uri, x + ":")
  {
    if StartsWith(uri, x + ":") {
      FirstColon(uri, x);
      assert uri[..|x|] == x;
    }
    if SchemeOf(uri) == Some(x) {
      var n := IndexOf(uri, ":").value;
      assert MatchesAt(uri, ":", n) && n == |x|;
      assert uri[..n + 1] == uri[..n] + uri[n..][..1];
    }
  }

  /** The protocol gate accepts exactly the URIs whose scheme is `http`, `https`, `ws` or `wss`. */
  lemma AcceptableIffScheme(uri: string)
    ensures HasAcceptableProtocol(uri) <==>
      SchemeOf(uri) in {Some("http"), Some("https"), Some("ws"), Some("wss")}
  {
    assert forall i :: 0 <= i < 5 ==> ("http" + ":")[i] == "http:"[i];
    assert forall i :: 0 <= i < 6 ==> ("https" + ":")[i] == "https:"[i];
    assert forall i :: 0 <= i < 3 ==> ("ws" + ":")[i] == "ws:"[i];
    assert forall i :: 0 <= i < 4 ==> ("wss" + ":")[i] == "wss:"[i];
    SchemeOfPrefix(uri, "http");
    SchemeOfPrefix(uri, "https");
    SchemeOfPrefix(uri, "ws");
    SchemeOfPrefix(uri, "wss");
    var p := AcceptableProtocols;
    assert p[0] == "http" + ":" && p[1] == "https" + ":" && p[2] == "ws" + ":" && p[3] == "wss" + ":";
    if HasAcceptableProtocol(uri) {
      var i :| 0 <= i < |p| && StartsWith(uri, p[i]);
      assert i == 0 || i == 1 || i == 2 || i == 3;
    }
    if SchemeOf(uri) in {Some("http"), Some("https"), Some("ws"), Some("wss")} {
      var i := if SchemeOf(uri) == Some("http") then 0
        else if SchemeOf(uri) == Some("https") then 1
        else if SchemeOf(uri) == Some("ws") then 2 else 3;
      assert StartsWith(uri, p[i]);
    }
  }

  /** Every `scheme://rest` passes the protocol gate; only `is-url` decides. */
  lemma UrlCompatible(scheme: WebScheme, rest: string, isUrl: string -> bool)
    ensures IsCompatibleUri(Url(scheme, rest), isUrl) == isUrl(Url(scheme, rest))
  {
    var k := match scheme case Http => 0 case Https => 1 case Ws => 2 case Wss => 3;
    assert AcceptableProtocols[k] <= Url(scheme, rest);
  }
}
