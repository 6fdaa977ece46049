/** The HTTP layer over the deadline cache: its key, what it may cache, and what a hit gets. */
module HttpCache {
  import opened Wrappers
  import opened DeadlineCacher
  import opened CacherSafety

  /** The parts of a request the key is made of, the two headers in their rendered form. */
  datatype Parts = Parts(uri: string, authorization: Option<string>, proxyAuthorization: Option<string>)

  predicate OneLine(text: string) {
    '\n' !in text
  }

  /** URIs and rendered header values never hold a line break. */
  predicate PartsOk(p: Parts) {
    && OneLine(p.uri)
    && (p.authorization.Some? ==> OneLine(p.authorization.value))
    && (p.proxyAuthorization.Some? ==> OneLine(p.proxyAuthorization.value))
  }

  function RenderHeader(h: Option<string>): string {
    match h
    case None => "None"
    case Some(text) => "Some(" + text + ")"
  }

  function CacheKey(p: Parts): string {
    p.uri + "\n" + RenderHeader(p.authorization) + "\n" + RenderHeader(p.proxyAuthorization)
  }

  /** What precedes the first line break can be read back. */
  lemma {:induction false} FirstLine(a1: string, b1: string, a2: string, b2: string)
    requires OneLine(a1) && OneLine(a2)
    requires a1 + "\n" + b1 == a2 + "\n" + b2
    ensures a1 == a2 && b1 == b2
  {
    var text := a1 + "\n" + b1;
    assert text[|a1|] == '\n' && text[|a2|] == '\n';
    assert forall i | 0 <= i < |a1| :: text[i] == a1[i];
    assert forall i | 0 <= i < |a2| :: text[i] == a2[i];
    assert |a1| == |a2|;
    assert a1 == text[..|a1|] == a2;
    assert b1 == text[|a1| + 1..] == b2;
  }

  lemma {:induction false} RenderHeaderInjective(h1: Option<string>, h2: Option<string>)
    requires RenderHeader(h1) == RenderHeader(h2)
    ensures h1 == h2
  {
    var t1, t2 := RenderHeader(h1), RenderHeader(h2);
    if h1.Some? && h2.Some? {
      assert h1.value == t1[5..|t1| - 1];
      assert h2.value == t2[5..|t2| - 1];
    } else {
      assert t1[0] == t2[0];
    }
  }

  lemma {:induction false} KeyLines(p: Parts)
    requires PartsOk(p)
    ensures CacheKey(p) == p.uri + "\n" + (RenderHeader(p.authorization) + "\n" + RenderHeader(p.proxyAuthorization))
    ensures OneLine(RenderHeader(p.authorization)) && OneLine(RenderHeader(p.proxyAuthorization))
  {
  }

  /** Requests share a key exactly when all three parts are equal. */
  lemma {:induction false} KeySeparates(p1: Parts, p2: Parts)
    requires PartsOk(p1) && PartsOk(p2)
    ensures CacheKey(p1) == CacheKey(p2) <==> p1 == p2
  {
    if CacheKey(p1) == CacheKey(p2) {
      var a1, a2 := RenderHeader(p1.authorization), RenderHeader(p2.authorization);
      var b1, b2 := RenderHeader(p1.proxyAuthorization), RenderHeader(p2.proxyAuthorization);
      KeyLines(p1);
      KeyLines(p2);
      FirstLine(p1.uri, a1 + "\n" + b1, p2.uri, a2 + "\n" + b2);
      FirstLine(a1, b1, a2, b2);
      RenderHeaderInjective(p1.authorization, p2.authorization);
      RenderHeaderInjective(p1.proxyAuthorization, p2.proxyAuthorization);
    }
  }

  datatype Response = Response(version: string, status: nat, headers: map<string, string>, contents: seq<char>)

  /** How the call behind the cache can end. */
  datatype Outcome =
    | CallFailed(reason: string)
    | BodyFailed(version: string, reason: string)
    | Replied(response: Response)

  predicate IsSuccess(status: nat) {
    200 <= status < 300
  }

  function BadResponse(version: string, reason: string): Response {
    Response(version, 500, map[], reason)
  }

  /** The response handed to the cache, and whether it may be kept. */
  function Package(requestVersion: string, outcome: Outcome): (Response, bool) {
    match outcome
    case CallFailed(reason) =>
      (BadResponse(requestVersion, "Proxy error downstream from cacher: " + reason), false)
    case BodyFailed(version, reason) =>
      (BadResponse(version, "Proxy error fetching body: " + reason), false)
    case Replied(response) => (response, IsSuccess(response.status))
  }

  /** The cache serves HTTP: request `r` has `parts[r]`, and its fetch, if completed, ended as `outcomes[r]`. */
  predicate ServesHttp(s: State<string, Response>, parts: seq<Parts>, versions: seq<string>, outcomes: seq<Outcome>) {
    && |parts| == |versions| == |outcomes| == |s.reqs|
    && (forall r | 0 <= r < |s.reqs| :: PartsOk(parts[r]) && s.reqs[r].key == CacheKey(parts[r]))
    && (forall r | 0 <= r < |s.reqs| && s.reqs[r].stage.Fetched? ::
          (s.reqs[r].stage.value, s.reqs[r].stage.cacheable) == Package(versions[r], outcomes[r]))
  }

  /**
   What the fetching request itself is answered: a reply as it is, whatever its status, kept
   exactly if that is from 200 to 299; for a call or a body that failed, status 500 without
   headers and with the reason, never kept.
   */
  lemma {:induction false} FetchAnswers(
    s: State<string, Response>, parts: seq<Parts>, versions: seq<string>, outcomes: seq<Outcome>, r: ReqId)
    requires ServesHttp(s, parts, versions, outcomes)
    requires r < |s.reqs| && s.reqs[r].stage.Fetched?
    ensures
      var answer, kept := s.reqs[r].stage.value, s.reqs[r].stage.cacheable;
      match outcomes[r]
      case Replied(response) => answer == response && (kept <==> 200 <= response.status <= 299)
      case CallFailed(reason) =>
        && answer == Response(versions[r], 500, map[], "Proxy error downstream from cacher: " + reason)
        && !kept
      case BodyFailed(version, reason) =>
        answer == Response(version, 500, map[], "Proxy error fetching body: " + reason) && !kept
  {
    assert (s.reqs[r].stage.value, s.reqs[r].stage.cacheable) == Package(versions[r], outcomes[r]);
  }

  /**
   A response served from the cache is, unchanged, what the backend replied with a success
   status to another request with the same URI, Authorization and Proxy-Authorization; no
   failed call, failed body or error status ever reaches a second client.
   */
  lemma {:induction false} HitServesSameResource(
    staleness: nat, s: State<string, Response>, parts: seq<Parts>, versions: seq<string>, outcomes: seq<Outcome>,
    r: ReqId)
    requires Reachable(staleness, s) && ServesHttp(s, parts, versions, outcomes)
    requires r < |s.reqs| && s.reqs[r].stage.Hit?
    ensures exists f ::
      && 0 <= f < |s.reqs| && f != r
      && parts[f] == parts[r]
      && outcomes[f] == Replied(s.reqs[r].stage.value)
      && 200 <= s.reqs[r].stage.value.status <= 299
  {
    HitIsOneCacheableFetch(staleness, s, r);
    var f: nat :|
      && f < |s.reqs| && f != r
      && s.reqs[f].key == s.reqs[r].key
      && s.reqs[f].stage.Fetched? && s.reqs[f].stage.cacheable
      && s.reqs[f].stage.guard == s.reqs[r].stage.guard
      && s.reqs[f].stage.value == s.reqs[r].stage.value;
    KeySeparates(parts[f], parts[r]);
    assert outcomes[f] == Replied(s.reqs[r].stage.value);
  }
}
