/**
 * The HTTP front of the manager (src/manager/http.rs): the `AuthMiddleware::authorize`
 * decision over a request's path, headers and query; the path normalisation of the
 * embedded web UI; and how `HTTPServer::run` combines the results of its two listeners.
 */
module HttpGate {
  import opened Wrappers
  import opened Strings

  /** A header value: text, or bytes that are not UTF-8. */
  datatype Header = Text(s: string) | NotUtf8

  /** What `authorize` looks at: the URI path and query, `Authorization` and `Upgrade`. */
  datatype Request = Request(path: string, query: Option<string>, authorization: Option<Header>, upgrade: Option<Header>)

  /** `Ok(request)` forwards to the router; `Err(response)` answers with a bare status. */
  datatype Decision = Forward | Respond(status: nat)

  const CheckSecretPath := "/check_secret"
  const BearerPrefix := "Bearer "
  const Ok := 200
  const Unauthorized := 401

  /** How the "Bearer " prefix is taken off a header value. */
  datatype BearerStrip =
    | EveryPrefix   // `trim_start_matches("Bearer ")`: every leading repetition
    | OnePrefix     // `strip_prefix("Bearer ")`: one, when present

  function StripBearer(s: string, how: BearerStrip): (r: string)
    ensures how == EveryPrefix ==> !StartsWith(r, BearerPrefix)
    ensures how == OnePrefix && StartsWith(s, BearerPrefix) ==> s == BearerPrefix + r
    ensures how == OnePrefix && !StartsWith(s, BearerPrefix) ==> r == s
  {
    match how
    case EveryPrefix => TrimStartMatches(s, BearerPrefix)
    case OnePrefix =>
      if StartsWith(s, BearerPrefix) then
        assert s == s[..|BearerPrefix|] + s[|BearerPrefix|..];
        s[|BearerPrefix|..]
      else s
  }

  /** The header carries the secret: present, UTF-8, and equal to it once the prefix is stripped. */
  predicate Bears(h: Option<Header>, secret: string, how: BearerStrip) {
    h.Some? && h.value.Text? && StripBearer(h.value.s, how) == secret
  }

  /** One '&'-separated query piece as a pair: split at its first '=', or ("", "") without one. */
  function QueryPair(piece: string): (r: (string, string))
    ensures '=' !in piece ==> r == ("", "")
    ensures '=' in piece ==> '=' !in r.0 && piece == r.0 + "=" + r.1
  {
    match SplitOnce(piece, '=')
    case None => ("", "")
    case Some(kv) => kv
  }

  /** The query pairs `authorize` collects. */
  function QueryPairs(query: string): (r: seq<(string, string)>)
    ensures |r| == |Split(query, '&')|
    ensures forall i :: 0 <= i < |r| ==> r[i] == QueryPair(Split(query, '&')[i])
  {
    var pieces := Split(query, '&');
    PairsOf(pieces)
  }

  function PairsOf(pieces: seq<string>): (r: seq<(string, string)>)
    ensures |r| == |pieces| && forall i :: 0 <= i < |r| ==> r[i] == QueryPair(pieces[i])
  {
    if pieces == [] then [] else [QueryPair(pieces[0])] + PairsOf(pieces[1..])
  }

  /** The loop over the pairs: true at the first pair ("secret", secret). */
  function SecretFound(pairs: seq<(string, string)>, secret: string): (found: bool)
    ensures found <==> exists i :: 0 <= i < |pairs| && pairs[i] == ("secret", secret)
  {
    if pairs == [] then false
    else if pairs[0].0 == "secret" && pairs[0].1 == secret then true
    else
      var rest := SecretFound(pairs[1..], secret);
      assert forall i :: 1 <= i < |pairs| ==> pairs[i] == pairs[1..][i - 1];
      rest
  }

  /**
   * `AuthorizeRequest` with a given way of stripping "Bearer ": the secret check answers
   * directly; a websocket upgrade is judged on its query alone; every other request on
   * its `Authorization` header.
   */
  function Gate(req: Request, secret: string, how: BearerStrip): (d: Decision)
    ensures req.path == CheckSecretPath ==> d.Respond?
    ensures d.Respond? ==> d.status == Ok || d.status == Unauthorized
  {
    if req.path == CheckSecretPath then
      if Bears(req.authorization, secret, how) then Respond(Ok) else Respond(Unauthorized)
    else if req.upgrade == Some(Text("websocket")) then
      if SecretFound(QueryPairs(req.query.GetOr("")), secret) then Forward else Respond(Unauthorized)
    else if Bears(req.authorization, secret, how) then Forward
    else Respond(Unauthorized)
  }

  /** `AuthMiddleware::authorize` as written. */
  function Authorize(req: Request, secret: string): Decision {
    Gate(req, secret, EveryPrefix)
  }

  /** "/check_secret" is answered 200 exactly when the header bears the secret, and is never forwarded. */
  lemma CheckSecretAnswers(req: Request, secret: string)
    requires req.path == CheckSecretPath
    ensures Authorize(req, secret) == if Bears(req.authorization, secret, EveryPrefix) then Respond(Ok) else Respond(Unauthorized)
  {
  }

  /** A websocket upgrade is forwarded iff some query pair is ("secret", secret); the header is not consulted. */
  lemma WebsocketByQuery(req: Request, secret: string, other: Option<Header>)
    requires req.path != CheckSecretPath && req.upgrade == Some(Text("websocket"))
    ensures Authorize(req, secret) == Authorize(req.(authorization := other), secret)
    ensures var pairs := QueryPairs(req.query.GetOr(""));
      Authorize(req, secret) == Forward <==> exists i :: 0 <= i < |pairs| && pairs[i] == ("secret", secret)
  {
  }

  /** Any other request is forwarded iff its `Authorization` header is UTF-8 and bears the secret. */
  lemma HeaderDecides(req: Request, secret: string)
    requires req.path != CheckSecretPath && req.upgrade != Some(Text("websocket"))
    ensures req.authorization.None? || req.authorization == Some(NotUtf8) ==> Authorize(req, secret) == Respond(Unauthorized)
    ensures Authorize(req, secret) == Forward <==> Bears(req.authorization, secret, EveryPrefix)
  {
  }

  lemma PrefixStripped(rest: string)
    ensures StartsWith(BearerPrefix + rest, BearerPrefix) && (BearerPrefix + rest)[|BearerPrefix|..] == rest
  {
    assert (BearerPrefix + rest)[..|BearerPrefix|] == BearerPrefix;
  }

  /** Every leading "Bearer " is stripped, so "Bearer Bearer s" authorises the secret s. */
  lemma DoubleBearerAccepted(path: string, query: Option<string>, upgrade: Option<Header>, s: string)
    requires path != CheckSecretPath && upgrade != Some(Text("websocket")) && !StartsWith(s, BearerPrefix)
    ensures Authorize(Request(path, query, Some(Text(BearerPrefix + BearerPrefix + s)), upgrade), s) == Forward
  {
    assert BearerPrefix + BearerPrefix + s == BearerPrefix + (BearerPrefix + s);
    PrefixStripped(BearerPrefix + s);
    PrefixStripped(s);
    assert TrimStartMatches(s, BearerPrefix) == s;
    assert TrimStartMatches(BearerPrefix + s, BearerPrefix) == s;
  }

  /** As written, a secret that itself begins with "Bearer " is never matched by a header: no header authorises it. */
  lemma BearerSecretLockedOut(req: Request, rest: string)
    requires req.path != CheckSecretPath && req.upgrade != Some(Text("websocket"))
    ensures Authorize(req, BearerPrefix + rest) == Respond(Unauthorized)
    ensures Authorize(req.(path := CheckSecretPath), BearerPrefix + rest) == Respond(Unauthorized)
  {
    PrefixStripped(rest);
  }

  /** The gate with one "Bearer " stripped: the documented header "Bearer <secret>" authorises every secret. */
  function AuthorizeFixed(req: Request, secret: string): Decision {
    Gate(req, secret, OnePrefix)
  }

  lemma FixedAcceptsEverySecret(path: string, query: Option<string>, upgrade: Option<Header>, secret: string)
    requires path != CheckSecretPath && upgrade != Some(Text("websocket"))
    ensures AuthorizeFixed(Request(path, query, Some(Text(BearerPrefix + secret)), upgrade), secret) == Forward
    ensures AuthorizeFixed(Request(CheckSecretPath, query, Some(Text(BearerPrefix + secret)), upgrade), secret) == Respond(Ok)
  {
    PrefixStripped(secret);
  }

  /** `webui`: strip every leading '/', and serve "index.html" for the bare root. */
  function AssetPath(path: string): (r: string)
    ensures r != [] && !StartsWith(r, "/")
    ensures TrimStartMatches(path, "/") != [] ==> r == TrimStartMatches(path, "/")
  {
    var p := TrimStartMatches(path, "/");
    assert !StartsWith("index.html", "/") by { assert "index.html"[..1] == "i"; }
    if p == [] then "index.html" else p
  }

  lemma AssetPathIdempotent(path: string)
    ensures AssetPath(AssetPath(path)) == AssetPath(path)
  {
    var r := AssetPath(path);
    assert TrimStartMatches(r, "/") == r;
  }

  lemma RootServesIndex(slashes: nat)
    ensures AssetPath(seq(slashes, _ => '/')) == "index.html"
  {
    SlashesTrimmed(slashes);
  }

  lemma {:induction false} SlashesTrimmed(n: nat)
    ensures TrimStartMatches(seq(n, _ => '/'), "/") == []
  {
    if n > 0 {
      var s := seq(n, _ => '/');
      assert s[..1] == "/";
      assert s[1..] == seq(n - 1, _ => '/');
      SlashesTrimmed(n - 1);
    }
  }

  datatype Page = Serve(asset: string) | Redirect(location: string)

  /** A known asset is served, anything else redirects to "/". */
  function WebUi(path: string, assets: set<string>): (p: Page)
    ensures p.Serve? <==> AssetPath(path) in assets
    ensures p.Serve? ==> p.asset == AssetPath(path)
    ensures p.Redirect? ==> p.location == "/"
  {
    var p := AssetPath(path);
    if p in assets then Serve(p) else Redirect("/")
  }

  /** `HTTPServer::run`: the results of the local listener and the main listener combined. */
  function Combine(local: Result<(), string>, main: Result<(), string>): (r: Result<(), string>)
    ensures r.Success? <==> local.Success? && main.Success?
    ensures local.Failure? && main.Failure? ==> r.error == "local listen: " + local.error + " | " + main.error
    ensures local.Failure? && main.Success? ==> r == local
    ensures local.Success? && main.Failure? ==> r == main
  {
    match (local, main)
    case (Failure(e1), Failure(e2)) => Failure("local listen: " + e1 + " | " + e2)
    case (Failure(e1), Success(_)) => Failure(e1)
    case (Success(_), Failure(e2)) => Failure(e2)
    case (Success(_), Success(_)) => Success(())
  }
}
