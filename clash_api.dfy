/**
 * The control-plane ("clash API") client of src/service/clash_api.rs: the websocket URL of
 * each statistics endpoint, the per-connection receive loop, and the records it decodes.
 */
module ClashApi {
  import opened Wrappers
  import opened Strings
  import opened Json

  newtype u64 = x: int | 0 <= x < 0x1_0000_0000_0000_0000

  /** The three statistics subscriptions. */
  datatype ApiType = Traffic | Speed | Memory

  /** The endpoint path of each subscription; note that Speed reads "/traffic". */
  function Endpoint(t: ApiType): string {
    match t
    case Traffic => "/connections"
    case Speed => "/traffic"
    case Memory => "/memory"
  }

  /** `ClashAPIType::create_url`: `listen` is the Display form of the socket address. */
  function CreateUrl(t: ApiType, listen: string, secret: Option<string>): string {
    var url := "ws://" + listen + Endpoint(t);
    match secret
    case Some(s) => url + "?token=" + s
    case None => url
  }

  /** The subscription an endpoint path belongs to. */
  function EndpointType(path: string): (r: Option<ApiType>)
    ensures r.Some? ==> Endpoint(r.value) == path
  {
    if path == "/connections" then Some(Traffic)
    else if path == "/traffic" then Some(Speed)
    else if path == "/memory" then Some(Memory)
    else None
  }

  /** Reads "<endpoint>[?token=<secret>]" back into (subscription, token). */
  function ParsePathQuery(pq: string): Option<(ApiType, Option<string>)> {
    if '?' in pq then
      var j := IndexOf(pq, '?');
      var q := pq[j + 1..];
      match EndpointType(pq[..j])
      case None => None
      case Some(t) => if StartsWith(q, "token=") then Some((t, Some(q[6..]))) else None
    else
      match EndpointType(pq)
      case None => None
      case Some(t) => Some((t, None))
  }

  /** Reads a control-plane URL back into (subscription, listen address, token). */
  function ParseUrl(url: string): Option<(ApiType, string, Option<string>)> {
    if !StartsWith(url, "ws://") || '/' !in url[5..] then None
    else
      var rest := url[5..];
      var i := IndexOf(rest, '/');
      match ParsePathQuery(rest[i..])
      case None => None
      case Some(r) => Some((r.0, rest[..i], r.1))
  }

  lemma {:induction false} IndexOfAfter(a: string, b: string, c: char)
    requires c !in a && c in b
    ensures c in a + b && IndexOf(a + b, c) == |a| + IndexOf(b, c)
    decreases |a|
  {
    assert (a + b)[|a| + IndexOf(b, c)] == c;
    if a != [] {
      assert (a + b)[1..] == a[1..] + b;
      IndexOfAfter(a[1..], b, c);
    }
  }

  function Tail(secret: Option<string>): string {
    if secret.Some? then "?token=" + secret.value else ""
  }

  /** Each endpoint path names its own subscription and holds no query separator. */
  lemma EndpointInverse(t: ApiType)
    ensures EndpointType(Endpoint(t)) == Some(t)
    ensures '?' !in Endpoint(t) && |Endpoint(t)| > 0 && Endpoint(t)[0] == '/'
  {
  }

  lemma QueryAfter(e: string, secret: string)
    requires '?' !in e
    ensures var pq := e + Tail(Some(secret));
      '?' in pq && IndexOf(pq, '?') == |e| && pq[..|e|] == e && pq[|e| + 1..] == "token=" + secret
  {
    var tail := "?token=" + secret;
    assert tail == Tail(Some(secret));
    assert tail[0] == '?';
    IndexOfAfter(e, tail, '?');
    assert (e + tail)[|e| + 1..] == tail[1..];
  }

  lemma PathQueryRoundTrip(t: ApiType, secret: Option<string>)
    ensures ParsePathQuery(Endpoint(t) + Tail(secret)) == Some((t, secret))
  {
    EndpointInverse(t);
    if secret.Some? {
      PathQueryToken(t, secret.value);
    } else {
      assert Endpoint(t) + Tail(secret) == Endpoint(t);
    }
  }

  lemma PathQueryToken(t: ApiType, s: string)
    ensures ParsePathQuery(Endpoint(t) + Tail(Some(s))) == Some((t, Some(s)))
  {
    var e := Endpoint(t);
    EndpointInverse(t);
    QueryAfter(e, s);
    TokenPrefix(s);
    ParseTokenQuery(e + Tail(Some(s)), e, t, s);
  }

  lemma ParseTokenQuery(pq: string, e: string, t: ApiType, s: string)
    requires '?' in pq && IndexOf(pq, '?') == |e| && pq[..|e|] == e && pq[|e| + 1..] == "token=" + s
    requires EndpointType(e) == Some(t)
    requires StartsWith("token=" + s, "token=") && ("token=" + s)[6..] == s
    ensures ParsePathQuery(pq) == Some((t, Some(s)))
  {
  }

  lemma TokenPrefix(s: string)
    ensures StartsWith("token=" + s, "token=") && ("token=" + s)[6..] == s
  {
    var q := "token=" + s;
    assert q[..6] == "token=";
    assert q[6..] == s;
  }

  lemma ParseUrlOf(listen: string, pq: string)
    requires '/' !in listen && |pq| > 0 && pq[0] == '/'
    ensures ParseUrl("ws://" + (listen + pq))
         == match ParsePathQuery(pq) case None => None case Some(r) => Some((r.0, listen, r.1))
  {
    var url := "ws://" + (listen + pq);
    assert url[..5] == "ws://";
    assert url[5..] == listen + pq;
    IndexOfAfter(listen, pq, '/');
    assert (listen + pq)[|listen|..] == pq;
    assert (listen + pq)[..|listen|] == listen;
  }

  /**
   * The URL determines the subscription, the listen address and the token, so no two
   * subscriptions (or a tokened and an untokened one) ever share a URL.
   */
  lemma CreateUrlRoundTrip(t: ApiType, listen: string, secret: Option<string>)
    requires '/' !in listen && '?' !in listen
    ensures ParseUrl(CreateUrl(t, listen, secret)) == Some((t, listen, secret))
  {
    var pq := Endpoint(t) + Tail(secret);
    EndpointInverse(t);
    CreateUrlSplit(t, listen, secret);
    ParseUrlOf(listen, pq);
    PathQueryRoundTrip(t, secret);
  }

  lemma CreateUrlSplit(t: ApiType, listen: string, secret: Option<string>)
    ensures CreateUrl(t, listen, secret) == "ws://" + (listen + (Endpoint(t) + Tail(secret)))
  {
    var w, e, tl := "ws://", Endpoint(t), Tail(secret);
    if secret.Some? {
      assert w + listen + e + "?token=" + secret.value == w + listen + e + tl;
    } else {
      assert w + listen + e == w + listen + e + tl;
    }
    assert w + listen + e + tl == w + (listen + (e + tl));
  }

  lemma NoQueryInBase(t: ApiType, listen: string)
    requires '?' !in listen
    ensures '?' !in "ws://" + listen + Endpoint(t)
  {
    var e := Endpoint(t);
    EndpointInverse(t);
    var w: string := "ws://";
    assert '?' !in w by {
      assert w[0] != '?' && w[1] != '?' && w[2] != '?' && w[3] != '?' && w[4] != '?';
    }
    NotInConcat(w, listen, '?');
    NotInConcat(w + listen, e, '?');
  }

  lemma NotInConcat(a: string, b: string, c: char)
    requires c !in a && c !in b
    ensures c !in a + b
  {
    forall k | 0 <= k < |a + b| ensures (a + b)[k] != c {
      if k < |a| { assert (a + b)[k] == a[k]; } else { assert (a + b)[k] == b[k - |a|]; }
    }
  }

  lemma QueryTail(base: string, s: string)
    ensures var url := base + "?token=" + s;
      '?' in url && EndsWith(url, "?token=" + s) && StartsWith(url, base)
  {
    var tail := "?token=" + s;
    var url := base + tail;
    assert base + "?token=" + s == url;
    assert tail[0] == '?';
    assert url[|base|] == '?';
    assert url[|url| - |tail|..] == tail;
    assert url[..|base|] == base;
  }

  /** Without a secret the URL carries no query at all; with one, it ends in the secret. */
  lemma CreateUrlQuery(t: ApiType, listen: string, secret: Option<string>)
    requires '?' !in listen
    ensures secret.None? <==> '?' !in CreateUrl(t, listen, secret)
    ensures secret.Some? ==> EndsWith(CreateUrl(t, listen, secret), "?token=" + secret.value)
    ensures StartsWith(CreateUrl(t, listen, secret), "ws://" + listen + Endpoint(t))
  {
    var base := "ws://" + listen + Endpoint(t);
    NoQueryInBase(t, listen);
    if secret.Some? {
      QueryTail(base, secret.value);
    } else {
      assert base[..|base|] == base;
    }
  }

  /** `ClashAPITrafficResult`: "connections", "downloadTotal", "uploadTotal". */
  datatype TrafficResult = TrafficResult(connections: Option<seq<Json>>, downloadTotal: u64, uploadTotal: u64)
  /** `ClashAPISpeedResult`: "up", "down". */
  datatype SpeedResult = SpeedResult(up: u64, down: u64)
  /** `ClashAPIMemoryResult`: "inuse". */
  datatype MemoryResult = MemoryResult(inuse: u64)

  /** A websocket message; `Text` carries what decoding its text into the expected record yields. */
  datatype Message<R> = Text(decoded: Option<R>) | Binary | Ping | Pong | CloseFrame

  /** One turn of the receive loop: the token fired, or `stream.next()` produced something. */
  datatype Frame<R> = Cancel | Received(msg: Message<R>) | ReceiveError(reason: string) | EndOfStream

  /** How connecting ended: connected, failed, or the token fired first. */
  datatype Connect = Connected | ConnectFailed(reason: string) | CancelledWhileConnecting

  datatype HandleEnd = NeverConnected | ConnectError | Cancelled | ReceiveFailed | StillReading

  /** The callbacks invoked in order, why the task ended, whether it closed the stream, its error log. */
  datatype HandleRun<R> = HandleRun(callbacks: seq<R>, end: HandleEnd, closed: bool, logged: Option<string>)

  predicate Stops<R>(f: Frame<R>) {
    f.Cancel? || f.ReceiveError?
  }

  /** The position of the first frame that ends the loop, or the length when none does. */
  function FirstStop<R>(frames: seq<Frame<R>>): (k: nat)
    ensures k <= |frames|
    ensures forall j :: 0 <= j < k ==> !Stops(frames[j])
    ensures k < |frames| ==> Stops(frames[k])
  {
    if frames == [] then 0 else if Stops(frames[0]) then 0 else 1 + FirstStop(frames[1..])
  }

  /** The records decoded from the text frames, in order. */
  function Decoded<R>(frames: seq<Frame<R>>): seq<R> {
    if frames == [] then []
    else
      (match frames[0]
       case Received(Text(Some(r))) => [r]
       case _ => [])
      + Decoded(frames[1..])
  }

  lemma {:induction false} DecodedAppend<R>(a: seq<Frame<R>>, b: seq<Frame<R>>)
    ensures Decoded(a + b) == Decoded(a) + Decoded(b)
    decreases |a|
  {
    if a != [] {
      assert (a + b)[1..] == a[1..] + b;
      DecodedAppend(a[1..], b);
    } else {
      assert a + b == b;
    }
  }

  lemma DecodedStep<R>(frames: seq<Frame<R>>, i: nat)
    requires i < |frames|
    ensures Decoded(frames[..i + 1]) == Decoded(frames[..i]) + Decoded([frames[i]])
  {
    assert frames[..i + 1] == frames[..i] + [frames[i]];
    DecodedAppend(frames[..i], [frames[i]]);
  }

  lemma FirstStopAt<R>(frames: seq<Frame<R>>, i: nat)
    requires i <= |frames| && forall j :: 0 <= j < i ==> !Stops(frames[j])
    requires i < |frames| ==> Stops(frames[i])
    ensures FirstStop(frames) == i
  {
  }

  /**
   * `ClashAPIType::handle`: connect (racing the token), then invoke the callback once per
   * text frame that decodes into the record; other frames and undecodable text are skipped,
   * end of stream keeps the loop going, the token or a receive error ends it, and the
   * stream is closed on the way out.
   */
  method Handle<R>(connect: Connect, frames: seq<Frame<R>>) returns (run: HandleRun<R>)
    ensures connect.CancelledWhileConnecting? ==> run == HandleRun([], NeverConnected, false, None)
    ensures connect.ConnectFailed? ==>
      run == HandleRun([], ConnectError, false, Some("failed to connect to clash api: " + connect.reason))
    ensures connect.Connected? ==>
      var k := FirstStop(frames);
      && run.callbacks == Decoded(frames[..k])
      && run.closed == (k < |frames|)
      && run.end == (if k == |frames| then StillReading else if frames[k].Cancel? then Cancelled else ReceiveFailed)
      && run.logged == (if k < |frames| && frames[k].ReceiveError?
                        then Some("failed to receive message from clash api: " + frames[k].reason) else None)
  {
    match connect {
      case CancelledWhileConnecting =>
        return HandleRun([], NeverConnected, false, None);
      case ConnectFailed(e) =>
        return HandleRun([], ConnectError, false, Some("failed to connect to clash api: " + e));
      case Connected =>
    }
    var callbacks: seq<R> := [];
    var i := 0;
    while i < |frames|
      invariant 0 <= i <= |frames|
      invariant forall j :: 0 <= j < i ==> !Stops(frames[j])
      invariant callbacks == Decoded(frames[..i])
    {
      DecodedStep(frames, i);
      match frames[i] {
        case Cancel =>
          FirstStopAt(frames, i);
          return HandleRun(callbacks, Cancelled, true, None);
        case ReceiveError(e) =>
          FirstStopAt(frames, i);
          return HandleRun(callbacks, ReceiveFailed, true, Some("failed to receive message from clash api: " + e));
        case EndOfStream =>
        case Received(msg) =>
          if msg.Text? && msg.decoded.Some? {
            callbacks := callbacks + [msg.decoded.value];
          }
      }
      i := i + 1;
    }
    assert frames[..i] == frames;
    FirstStopAt(frames, i);
    run := HandleRun(callbacks, StillReading, false, None);
  }
}
