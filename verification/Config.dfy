/** Scheme normalisation of the configured backend address (pkg/config/config.go). */
module BackendUrls {
  import opened Strings

  const WS := "ws://"
  const WSS := "wss://"
  const HTTP := "http://"
  const HTTPS := "https://"
  const SOCKET_PATH := "/api/kubelet/ws"

  function WebSocketURL(url: string): string {
    if HasPrefix(url, HTTP) then ReplaceFirst(url, HTTP, WS)
    else if HasPrefix(url, HTTPS) then ReplaceFirst(url, HTTPS, WSS)
    else if !HasPrefix(url, WS) && !HasPrefix(url, WSS) then WSS + url
    else url
  }

  function BackendHTTPURL(url: string): string {
    var http :=
      if HasPrefix(url, WS) then ReplaceFirst(url, WS, HTTP)
      else if HasPrefix(url, WSS) then ReplaceFirst(url, WSS, HTTPS)
      else if !HasPrefix(url, HTTP) && !HasPrefix(url, HTTPS) then HTTPS + url
      else url;
    if Contains(http, SOCKET_PATH) then ReplaceFirst(http, SOCKET_PATH, "") else http
  }

  /** Replacing a prefix by first occurrence touches only the prefix. */
  lemma ReplacePrefix(prefix: string, rest: string, replacement: string)
    requires prefix != ""
    ensures ReplaceFirst(prefix + rest, prefix, replacement) == replacement + rest
  {
    assert OccursAt(prefix + rest, prefix, 0);
    assert IndexOf(prefix + rest, prefix) == 0;
  }

  /** The schemes, as first characters: none of them is a prefix of another address's scheme. */
  lemma SchemesDiffer(rest: string)
    ensures !HasPrefix(WSS + rest, WS) && !HasPrefix(WS + rest, WSS)
    ensures !HasPrefix(HTTPS + rest, HTTP) && !HasPrefix(HTTP + rest, HTTPS)
    ensures !HasPrefix(WS + rest, HTTP) && !HasPrefix(WS + rest, HTTPS)
    ensures !HasPrefix(WSS + rest, HTTP) && !HasPrefix(WSS + rest, HTTPS)
  {
    assert (WSS + rest)[2] == 's' && (WS + rest)[2] == ':';
    assert (HTTPS + rest)[4] == 's' && (HTTP + rest)[4] == ':';
    assert (WS + rest)[0] == 'w' && (WSS + rest)[0] == 'w';
    assert HTTP[0] == 'h' && HTTPS[0] == 'h';
  }

  lemma FromHTTP(rest: string)
    ensures WebSocketURL(HTTP + rest) == WS + rest
  {
    ReplacePrefix(HTTP, rest, WS);
  }

  lemma FromHTTPS(rest: string)
    ensures WebSocketURL(HTTPS + rest) == WSS + rest
  {
    ReplacePrefix(HTTPS, rest, WSS);
    SchemesDiffer(rest);
  }

  lemma FromWebSocket(url: string)
    requires HasPrefix(url, WS) || HasPrefix(url, WSS)
    ensures WebSocketURL(url) == url
  {
    assert url[0] == 'w';
  }

  /** An address without a scheme is taken to be a secure one, in both forms. */
  lemma DefaultIsSecure(url: string)
    requires !HasPrefix(url, "ws://") && !HasPrefix(url, "wss://")
    requires !HasPrefix(url, "http://") && !HasPrefix(url, "https://")
    ensures WebSocketURL(url) == "wss://" + url
    ensures BackendHTTPURL(url) == BackendHTTPURL("https://" + url)
  {
    SchemesDiffer(url);
    assert HasPrefix(HTTPS + url, HTTPS);
    assert (HTTPS + url)[0] == 'h';
  }

  lemma WebSocketScheme(url: string)
    ensures HasPrefix(WebSocketURL(url), WS) || HasPrefix(WebSocketURL(url), WSS)
  {
    if HasPrefix(url, HTTP) {
      assert url == HTTP + url[|HTTP|..];
      FromHTTP(url[|HTTP|..]);
    } else if HasPrefix(url, HTTPS) {
      assert url == HTTPS + url[|HTTPS|..];
      FromHTTPS(url[|HTTPS|..]);
    }
  }

  lemma WebSocketURLIdempotent(url: string)
    ensures WebSocketURL(WebSocketURL(url)) == WebSocketURL(url)
  {
    WebSocketScheme(url);
    FromWebSocket(WebSocketURL(url));
  }

  /** The address without its scheme. */
  function AfterScheme(url: string): string {
    if HasPrefix(url, WS) then url[|WS|..]
    else if HasPrefix(url, WSS) then url[|WSS|..]
    else if HasPrefix(url, HTTP) then url[|HTTP|..]
    else if HasPrefix(url, HTTPS) then url[|HTTPS|..]
    else url
  }

  /** The HTTP scheme that replaces the address's scheme. */
  function HTTPScheme(url: string): string {
    if HasPrefix(url, WS) || (!HasPrefix(url, WSS) && HasPrefix(url, HTTP)) then HTTP else HTTPS
  }

  function StripPath(http: string): string {
    ReplaceFirst(http, SOCKET_PATH, "")
  }

  lemma HTTPURLBySchemeAndPath(url: string)
    ensures BackendHTTPURL(url) == StripPath(HTTPScheme(url) + AfterScheme(url))
  {
    var rest := AfterScheme(url);
    if HasPrefix(url, WS) {
      assert url == WS + rest;
      ReplacePrefix(WS, rest, HTTP);
    } else if HasPrefix(url, WSS) {
      assert url == WSS + rest;
      ReplacePrefix(WSS, rest, HTTPS);
    } else if HasPrefix(url, HTTP) {
      assert url == HTTP + rest;
    } else if HasPrefix(url, HTTPS) {
      assert url == HTTPS + rest;
      SchemesDiffer(rest);
    }
  }

  /** The socket path without its leading slash. */
  const BARE_PATH := "api/kubelet/ws"

  /** The path cannot start before the last slash of the scheme. */
  lemma PathNotInsideScheme(scheme: string, rest: string, j: nat)
    requires scheme == HTTP || scheme == HTTPS
    requires j < |scheme| - 1
    ensures !OccursAt(scheme + rest, SOCKET_PATH, j)
  {
    assert (scheme + rest)[j..][0] == scheme[j] && (scheme + rest)[j..][1] == scheme[j + 1];
    assert SOCKET_PATH[0] == '/' && SOCKET_PATH[1] == 'a';
  }

  lemma PathAfterScheme(scheme: string, rest: string)
    requires scheme == HTTP || scheme == HTTPS
    ensures |scheme| - 1 <= IndexOf(scheme + rest, SOCKET_PATH)
  {
    var i := IndexOf(scheme + rest, SOCKET_PATH);
    if i < |scheme| - 1 {
      PathNotInsideScheme(scheme, rest, i);
    }
  }

  lemma LastSlash(scheme: string)
    requires scheme == HTTP || scheme == HTTPS
    ensures scheme == scheme[..|scheme| - 1] + ['/']
    ensures SOCKET_PATH == ['/'] + BARE_PATH
  {
  }

  lemma Regroup(a: string, b: string, c: string, d: string)
    ensures (a + b) + (c + d) == a + ((b + c) + d)
  {
  }

  lemma RemoveFirst(head: string, needle: string, tail: string)
    requires needle != ""
    requires |head| <= IndexOf(head + (needle + tail), needle)
    ensures ReplaceFirst(head + (needle + tail), needle, "") == head + tail
  {
    var s := head + (needle + tail);
    TakeDrop(head, needle + tail);
    assert s[|head| + |needle|..] == tail by {
      TakeDrop(needle, tail);
      DropDrop(s, |head|, |needle|);
    }
    RemoveAt(s, needle, |head|);
  }

  lemma RemoveAt(s: string, needle: string, i: nat)
    requires needle != ""
    requires i < |s| && OccursAt(s, needle, i) && i <= IndexOf(s, needle)
    ensures ReplaceFirst(s, needle, "") == s[..i] + s[i + |needle|..]
  {
    IndexIs(s, needle, i);
    assert s[..i] + "" == s[..i];
  }

  lemma TakeDrop(a: string, b: string)
    ensures (a + b)[..|a|] == a && (a + b)[|a|..] == b
  {
  }

  lemma DropDrop(s: string, a: nat, b: nat)
    requires a + b <= |s|
    ensures s[a..][b..] == s[a + b..]
  {
  }

  lemma IndexIs(s: string, needle: string, i: nat)
    requires i < |s| && OccursAt(s, needle, i) && i <= IndexOf(s, needle)
    ensures IndexOf(s, needle) == i
  {
  }

  lemma RemoveBehind(head: string, rest: string, needle: string)
    requires needle != ""
    requires |head| <= IndexOf(head + rest, needle)
    ensures head <= ReplaceFirst(head + rest, needle, "")
  {
  }

  lemma CancelFirst(c: char, a: string, b: string)
    ensures [c] + a <= [c] + b <==> a <= b
  {
    if [c] + a <= [c] + b {
      assert a == ([c] + b)[1..|a| + 1];
    }
    assert ([c] + b)[1..] == b && ([c] + a)[1..] == a;
  }

  lemma RemoveKeeps(head: string, c: char, needle: string, rest: string)
    requires !(needle <= rest)
    requires |head| <= IndexOf((head + [c]) + rest, [c] + needle)
    ensures head + [c] <= ReplaceFirst((head + [c]) + rest, [c] + needle, "")
  {
    NotAcross(head, c, needle, rest);
    RemoveBehind(head + [c], rest, [c] + needle);
  }

  lemma NotAcross(head: string, c: char, needle: string, rest: string)
    requires !(needle <= rest)
    ensures !OccursAt((head + [c]) + rest, [c] + needle, |head|)
  {
    assert ((head + [c]) + rest)[|head|..] == [c] + rest;
    CancelFirst(c, needle, rest);
  }

  /** Where the host part starts with the bare path, the slash of the scheme goes with it. */
  lemma StripEatsSlash(scheme: string, tail: string)
    requires scheme == HTTP || scheme == HTTPS
    ensures StripPath(scheme + (BARE_PATH + tail)) == scheme[..|scheme| - 1] + tail
  {
    var head := scheme[..|scheme| - 1];
    LastSlash(scheme);
    Regroup(head, ['/'], BARE_PATH, tail);
    PathAfterScheme(scheme, BARE_PATH + tail);
    RemoveFirst(head, SOCKET_PATH, tail);
  }

  /** Everywhere else the path is removed from behind the scheme, or is absent. */
  lemma StripKeepsScheme(scheme: string, rest: string)
    requires scheme == HTTP || scheme == HTTPS
    requires !HasPrefix(rest, BARE_PATH)
    ensures HasPrefix(StripPath(scheme + rest), scheme)
  {
    PathAfterScheme(scheme, rest);
    LastSlash(scheme);
    RemoveKeeps(scheme[..|scheme| - 1], '/', BARE_PATH, rest);
  }

  /**
   * Removing the socket path can eat the second slash of the scheme. The scheme
   * survives exactly when the host part is not the bare path, or goes on with a slash.
   */
  lemma HTTPSchemeKeptIff(url: string)
    ensures HasPrefix(BackendHTTPURL(url), HTTPScheme(url))
       <==> (HasPrefix(AfterScheme(url), BARE_PATH) ==> HasPrefix(AfterScheme(url), BARE_PATH + "/"))
  {
    var scheme, rest := HTTPScheme(url), AfterScheme(url);
    HTTPURLBySchemeAndPath(url);
    if HasPrefix(rest, BARE_PATH) {
      var tail := rest[|BARE_PATH|..];
      assert rest == BARE_PATH + tail;
      StripEatsSlash(scheme, tail);
      NextChar(BARE_PATH, tail, '/');
      SlashRestored(scheme, tail);
    } else {
      StripKeepsScheme(scheme, rest);
    }
  }

  lemma PartsOfHTTPS(rest: string)
    ensures AfterScheme(HTTPS + rest) == rest && HTTPScheme(HTTPS + rest) == HTTPS
  {
    SchemesDiffer(rest);
    assert (HTTPS + rest)[0] == 'h';
    TakeDrop(HTTPS, rest);
  }

  /** A host that is the bare path loses the scheme's second slash: "https://api/kubelet/ws" becomes "https:/". */
  lemma SchemeCanBeLost(tail: string)
    ensures BackendHTTPURL(HTTPS + (BARE_PATH + tail)) == "https:/" + tail
  {
    HTTPURLBySchemeAndPath(HTTPS + (BARE_PATH + tail));
    PartsOfHTTPS(BARE_PATH + tail);
    StripEatsSlash(HTTPS, tail);
    LastSlash(HTTPS);
    assert HTTPS[..|HTTPS| - 1] == "https:/";
  }

  lemma SlashRestored(scheme: string, tail: string)
    requires scheme == HTTP || scheme == HTTPS
    ensures HasPrefix(scheme[..|scheme| - 1] + tail, scheme) <==> tail != "" && tail[0] == '/'
  {
    NextChar(scheme[..|scheme| - 1], tail, '/');
    assert scheme == scheme[..|scheme| - 1] + ['/'];
  }

  lemma NextChar(head: string, tail: string, c: char)
    ensures head + [c] <= head + tail <==> tail != "" && tail[0] == c
  {
    if tail != "" {
      assert (head + tail)[|head|] == tail[0];
      assert head + tail == (head + [tail[0]]) + tail[1..];
      assert (head + [c])[|head|] == c;
    }
  }

  /** Normalising first does not change the HTTP address. */
  lemma HTTPURLFromNormalised(url: string)
    ensures BackendHTTPURL(WebSocketURL(url)) == BackendHTTPURL(url)
  {
    NormalisedParts(url);
    HTTPURLBySchemeAndPath(url);
    HTTPURLBySchemeAndPath(WebSocketURL(url));
  }

  lemma NormalisedParts(url: string)
    ensures AfterScheme(WebSocketURL(url)) == AfterScheme(url)
    ensures HTTPScheme(WebSocketURL(url)) == HTTPScheme(url)
  {
    if HasPrefix(url, WS) || HasPrefix(url, WSS) {
      FromWebSocket(url);
    } else if HasPrefix(url, HTTP) {
      assert url == HTTP + url[|HTTP|..];
      FromHTTP(url[|HTTP|..]);
    } else if HasPrefix(url, HTTPS) {
      assert url == HTTPS + url[|HTTPS|..];
      FromHTTPS(url[|HTTPS|..]);
      SchemesDiffer(url[|HTTPS|..]);
    } else {
      SchemesDiffer(url);
    }
  }

  // ---- The usual address ----

  lemma NotAcrossHost(host: string, tail: string)
    requires '/' !in host
    ensures !(BARE_PATH <= host + (SOCKET_PATH + tail))
  {
    var rest := host + (SOCKET_PATH + tail);
    assert rest[|host|] == '/' && rest[|host| + 1] == 'a';
    assert BARE_PATH[3] == '/' && BARE_PATH[4] == 'k' && '/' !in BARE_PATH[..3];
    assert 3 < |host| ==> rest[3] == host[3];
  }

  /** What starts with a slash starts behind a host that has none. */
  lemma BehindHost(scheme: string, host: string, path: string, tail: string)
    requires scheme != "" && '/' !in host && path != "" && path[0] == '/'
    requires |scheme| - 1 <= IndexOf(scheme + (host + (path + tail)), path)
    requires !OccursAt(scheme + (host + (path + tail)), path, |scheme| - 1)
    ensures |scheme + host| <= IndexOf(scheme + (host + (path + tail)), path)
  {
    var s := scheme + (host + (path + tail));
    assert forall j :: |scheme| <= j < |scheme| + |host| ==> s[j..][0] == host[j - |scheme|];
  }

  lemma NotAtSlash(scheme: string, host: string, tail: string)
    requires (scheme == HTTP || scheme == HTTPS) && '/' !in host
    ensures !OccursAt(scheme + (host + (SOCKET_PATH + tail)), SOCKET_PATH, |scheme| - 1)
  {
    LastSlash(scheme);
    NotAcrossHost(host, tail);
    NotAcross(scheme[..|scheme| - 1], '/', BARE_PATH, host + (SOCKET_PATH + tail));
  }

  /** From the address of the socket to that of the HTTP interface: another scheme, the path removed, the rest kept. */
  lemma SocketPathRemoved(host: string, tail: string)
    requires '/' !in host
    ensures BackendHTTPURL("wss://" + (host + ("/api/kubelet/ws" + tail))) == "https://" + host + tail
    ensures BackendHTTPURL("ws://" + (host + ("/api/kubelet/ws" + tail))) == "http://" + host + tail
  {
    var rest := host + (SOCKET_PATH + tail);
    SchemesDiffer(rest);
    RemovedBehind(WSS + rest, HTTPS, host, tail);
    RemovedBehind(WS + rest, HTTP, host, tail);
  }

  lemma RemovedBehind(url: string, scheme: string, host: string, tail: string)
    requires (scheme == HTTP || scheme == HTTPS) && '/' !in host
    requires HTTPScheme(url) == scheme && AfterScheme(url) == host + (SOCKET_PATH + tail)
    ensures BackendHTTPURL(url) == scheme + host + tail
  {
    HTTPURLBySchemeAndPath(url);
    PathAfterScheme(scheme, host + (SOCKET_PATH + tail));
    NotAtSlash(scheme, host, tail);
    BehindHost(scheme, host, SOCKET_PATH, tail);
    Together(scheme, host, SOCKET_PATH + tail);
    RemoveFirst(scheme + host, SOCKET_PATH, tail);
  }

  lemma Together(a: string, b: string, c: string)
    ensures a + (b + c) == (a + b) + c
  {
  }
}
