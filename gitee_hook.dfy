/** The Gitee verifier: event "Push Hook", a token header that carries
    Base64(HMAC-SHA256(secret, timestamp + "\n" + secret)), and a
    millisecond timestamp header that must lie within an hour of now. */
module GiteeHook {
  import opened Wrappers
  import opened Webhook
  import Payload

  const EventHeader := "X-Gitee-Event"
  const TokenHeader := "X-Gitee-Token"
  const TimestampHeader := "X-Gitee-Timestamp"
  const PushEvent := "Push Hook"
  /** Largest accepted distance between sender and receiver clocks, in ms. */
  const TimestampLimit := 3600000

  predicate IsDigit(c: char) {
    '0' <= c <= '9'
  }

  /** `str.isdigit()` over ASCII digits: non-empty and all digits. */
  predicate IsDigits(s: string) {
    s != "" && forall i :: 0 <= i < |s| ==> IsDigit(s[i])
  }

  /** `int(s)` for a string of decimal digits. */
  function DigitsValue(s: string): nat
    requires forall i :: 0 <= i < |s| ==> IsDigit(s[i])
  {
    if s == [] then 0
    else
      assert IsDigit(s[|s| - 1]);
      DigitsValue(s[..|s| - 1]) * 10 + (s[|s| - 1] as int - '0' as int)
  }

  /** `str(n)`: how a sender writes its epoch-millisecond timestamp. */
  function Decimal(n: nat): (r: string)
    ensures |r| > 0
    ensures forall i :: 0 <= i < |r| ==> IsDigit(r[i])
  {
    var last := [('0' as int + n % 10) as char];
    if n < 10 then last else Decimal(n / 10) + last
  }

  /** Reading back a written timestamp gives the number that was written. */
  lemma {:induction false} DecimalRoundTrip(n: nat)
    ensures IsDigits(Decimal(n)) && DigitsValue(Decimal(n)) == n
  {
    var r := Decimal(n);
    if n >= 10 {
      DecimalRoundTrip(n / 10);
      assert r[..|r| - 1] == Decimal(n / 10);
    }
  }

  function Abs(x: int): nat {
    if x < 0 then -x else x
  }

  /** The token a sender holding `secret` puts beside timestamp `ts`. */
  function ExpectedToken(prims: Primitives, secret: string, ts: string): string {
    prims.base64(prims.hmacSha256(prims.utf8(secret), prims.utf8(ts + "\n" + secret)))
  }

  /** `header_check`: event, token and timestamp headers, the parity rule,
      a digit-only timestamp, and the one-hour window around `nowMs`. */
  function HeaderCheck(cfg: Config, req: Request, nowMs: int): (ok: bool)
    ensures ok ==> HeaderGet(req.headers, EventHeader) == Some(PushEvent)
    ensures ok ==> HeaderGet(req.headers, TokenHeader).Some? && HeaderGet(req.headers, TimestampHeader).Some?
    ensures ok ==> ParityOk(cfg.secret, HeaderGet(req.headers, TokenHeader).value)
    ensures ok ==> var ts := HeaderGet(req.headers, TimestampHeader).value;
                   IsDigits(ts) && Abs(nowMs - DigitsValue(ts)) <= TimestampLimit
  {
    var h := req.headers;
    if HeaderGet(h, EventHeader).None? || HeaderGet(h, EventHeader).value != PushEvent then false
    else if HeaderGet(h, TokenHeader).None? then false
    else if HeaderGet(h, TimestampHeader).None? then false
    else
      var token := HeaderGet(h, TokenHeader).value;
      var ts := HeaderGet(h, TimestampHeader).value;
      if (cfg.secret != "" && token == "") || (cfg.secret == "" && token != "") then false
      else if !IsDigits(ts) then false
      else if Abs(nowMs - DigitsValue(ts)) > TimestampLimit then false
      else true
  }

  /** `signature`; `None` when the call raises: a missing token or
      timestamp header (`KeyError`) or a non-ASCII token (`TypeError` from
      `hmac.compare_digest`). */
  function Signature(cfg: Config, req: Request, prims: Primitives): (r: Option<bool>)
    ensures cfg.secret == "" ==> r == Some(true)
    ensures r.None? <==> (cfg.secret != "" &&
      (HeaderGet(req.headers, TokenHeader).None? ||
       (HeaderGet(req.headers, TokenHeader).value != "" &&
        (HeaderGet(req.headers, TimestampHeader).None? ||
         !(IsAscii(HeaderGet(req.headers, TokenHeader).value) &&
           IsAscii(ExpectedToken(prims, cfg.secret, HeaderGet(req.headers, TimestampHeader).value)))))))
    ensures r == Some(false) ==> cfg.secret != "" && HeaderGet(req.headers, TimestampHeader).Some?
    ensures r == Some(false) ==> var token := HeaderGet(req.headers, TokenHeader);
      token.Some? && token.value != "" &&
      token.value != ExpectedToken(prims, cfg.secret, HeaderGet(req.headers, TimestampHeader).value)
  {
    if cfg.secret == "" then Some(true)
    else match HeaderGet(req.headers, TokenHeader)
      case None => None
      case Some(token) =>
        if token == "" then Some(true)
        else match HeaderGet(req.headers, TimestampHeader)
          case None => None
          case Some(ts) => CompareDigest(ExpectedToken(prims, cfg.secret, ts), token)
  }

  /** `body_filter`: the shared body check, with `repository.url` logged. */
  function BodyFilter(cfg: Config, req: Request): (ok: bool)
    ensures ok <==> Payload.IsPushPayload(req.json, cfg.repoName, ["url"])
  {
    Payload.FilterBodyIsPushPayload(req.json, cfg.repoName, ["url"]);
    Payload.FilterBody(req.json, cfg.repoName, ["url"])
  }

  /** A secret/token emptiness mismatch in either direction fails the
      header check. */
  lemma HeaderCheckParity(cfg: Config, req: Request, nowMs: int)
    requires HeaderGet(req.headers, TokenHeader).Some?
    requires !ParityOk(cfg.secret, HeaderGet(req.headers, TokenHeader).value)
    ensures !HeaderCheck(cfg, req, nowMs)
  {
  }

  /** A timestamp that is not all digits, the empty one included, fails. */
  lemma HeaderCheckNeedsDigits(cfg: Config, req: Request, nowMs: int)
    requires HeaderGet(req.headers, TimestampHeader).Some?
    requires !IsDigits(HeaderGet(req.headers, TimestampHeader).value)
    ensures !HeaderCheck(cfg, req, nowMs)
  {
  }

  /** Once the other checks pass, the outcome is exactly the window test,
      whose bound is inclusive. */
  lemma HeaderCheckWindow(cfg: Config, req: Request, nowMs: int)
    requires HeaderGet(req.headers, EventHeader) == Some(PushEvent)
    requires HeaderGet(req.headers, TokenHeader).Some? && HeaderGet(req.headers, TimestampHeader).Some?
    requires ParityOk(cfg.secret, HeaderGet(req.headers, TokenHeader).value)
    requires IsDigits(HeaderGet(req.headers, TimestampHeader).value)
    ensures HeaderCheck(cfg, req, nowMs) <==>
      -TimestampLimit <= nowMs - DigitsValue(HeaderGet(req.headers, TimestampHeader).value) <= TimestampLimit
  {
  }

  /** With a secret and a non-empty token the outcome is the comparison
      with the expected token; the body plays no part. */
  lemma SignatureIsTokenComparison(cfg: Config, req: Request, prims: Primitives)
    requires cfg.secret != ""
    requires HeaderGet(req.headers, TokenHeader).Some? && HeaderGet(req.headers, TokenHeader).value != ""
    requires HeaderGet(req.headers, TimestampHeader).Some?
    requires IsAscii(HeaderGet(req.headers, TokenHeader).value)
    requires IsAscii(ExpectedToken(prims, cfg.secret, HeaderGet(req.headers, TimestampHeader).value))
    ensures Signature(cfg, req, prims) ==
      Some(HeaderGet(req.headers, TokenHeader).value == ExpectedToken(prims, cfg.secret, HeaderGet(req.headers, TimestampHeader).value))
  {
  }

  /** An empty token header, allowed only without a secret by the header
      check, makes the signature check pass. */
  lemma SignatureEmptyTokenPasses(cfg: Config, req: Request, prims: Primitives)
    requires HeaderGet(req.headers, TokenHeader) == Some("")
    ensures Signature(cfg, req, prims) == Some(true)
  {
  }

  /** Two requests with the same headers get the same signature verdict,
      whatever their bodies. */
  lemma SignatureIgnoresBody(cfg: Config, req1: Request, req2: Request, prims: Primitives)
    requires req1.headers == req2.headers
    ensures Signature(cfg, req1, prims) == Signature(cfg, req2, prims)
  {
  }

  /** A passed header check rules out the `KeyError`: the signature check
      then only raises on a non-ASCII token or expected token. */
  lemma HeaderCheckDefinesSignature(cfg: Config, req: Request, nowMs: int, prims: Primitives)
    requires HeaderCheck(cfg, req, nowMs)
    ensures Signature(cfg, req, prims).None? ==>
      var token := HeaderGet(req.headers, TokenHeader).value;
      var ts := HeaderGet(req.headers, TimestampHeader).value;
      !IsAscii(token) || !IsAscii(ExpectedToken(prims, cfg.secret, ts))
  {
  }

  /** The headers a Gitee sender attaches, as the server iterates them. */
  function SignedHeaders(prims: Primitives, secret: string, tsMs: nat): seq<(string, string)> {
    var ts := Decimal(tsMs);
    var token := if secret == "" then "" else ExpectedToken(prims, secret, ts);
    [(EventHeader, PushEvent), (TokenHeader, token), (TimestampHeader, ts)]
  }

  lemma SignedHeadersLookup(prims: Primitives, secret: string, tsMs: nat)
    ensures var h := SignedHeaders(prims, secret, tsMs);
      && HeaderGet(h, EventHeader) == Some(PushEvent)
      && HeaderGet(h, TokenHeader) == Some(h[1].1)
      && HeaderGet(h, TimestampHeader) == Some(Decimal(tsMs))
  {
    assert Canon(EventHeader)[8] != Canon(TokenHeader)[8];
    assert |Canon(EventHeader)| != |Canon(TimestampHeader)|;
    assert |Canon(TokenHeader)| != |Canon(TimestampHeader)|;
    var h := SignedHeaders(prims, secret, tsMs);
    assert h[1..][1..] == [h[2]];
  }

  /** Round trip: a request signed with the configured secret and stamped
      within the hour passes both the header and the signature check. */
  lemma SignedRequestAccepted(cfg: Config, req: Request, prims: Primitives, tsMs: nat, nowMs: int)
    requires req.headers == SignedHeaders(prims, cfg.secret, tsMs)
    requires IsAscii(ExpectedToken(prims, cfg.secret, Decimal(tsMs)))
    requires cfg.secret != "" ==> ExpectedToken(prims, cfg.secret, Decimal(tsMs)) != ""
    requires Abs(nowMs - tsMs) <= TimestampLimit
    ensures HeaderCheck(cfg, req, nowMs)
    ensures Signature(cfg, req, prims) == Some(true)
  {
    SignedHeadersLookup(prims, cfg.secret, tsMs);
    DecimalRoundTrip(tsMs);
  }

  /** The same signed request stamped two hours before now is refused. */
  lemma StaleRequestRejected(cfg: Config, req: Request, prims: Primitives, tsMs: nat, nowMs: int)
    requires req.headers == SignedHeaders(prims, cfg.secret, tsMs)
    requires nowMs == tsMs + 7200000
    ensures !HeaderCheck(cfg, req, nowMs)
  {
    SignedHeadersLookup(prims, cfg.secret, tsMs);
    DecimalRoundTrip(tsMs);
  }
}
