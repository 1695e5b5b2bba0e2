/** The GitHub verifier: event "push" and a signature header carrying
    "sha256=" + hex(HMAC-SHA256(secret, raw body)). */
module GitHubHook {
  import opened Wrappers
  import opened Webhook
  import Payload

  const EventHeader := "X-GitHub-Event"
  const SignatureHeader := "X-Hub-Signature-256"
  const PushEvent := "push"

  /** The signature header a sender holding `secret` attaches to `body`:
      the raw bytes, exactly as sent, are what is authenticated. */
  function ExpectedSignature(prims: Primitives, secret: string, body: seq<byte>): string {
    "sha256=" + prims.hexDigest(prims.hmacSha256(prims.utf8(secret), body))
  }

  /** `header_check`: event and signature headers and the parity rule; no
      timestamp is involved. */
  function HeaderCheck(cfg: Config, req: Request): (ok: bool)
    ensures ok ==> HeaderGet(req.headers, EventHeader) == Some(PushEvent)
    ensures ok ==> HeaderGet(req.headers, SignatureHeader).Some?
    ensures ok ==> ParityOk(cfg.secret, HeaderGet(req.headers, SignatureHeader).value)
  {
    var h := req.headers;
    if HeaderGet(h, EventHeader).None? || HeaderGet(h, EventHeader).value != PushEvent then false
    else if HeaderGet(h, SignatureHeader).None? then false
    else
      var sig := HeaderGet(h, SignatureHeader).value;
      if (cfg.secret != "" && sig == "") || (cfg.secret == "" && sig != "") then false
      else true
  }

  /** `signature`; `None` when the call raises: a missing signature header
      (`KeyError`) or a non-ASCII string in `hmac.compare_digest`. */
  function Signature(cfg: Config, req: Request, prims: Primitives): (r: Option<bool>)
    ensures cfg.secret == "" ==> r == Some(true)
    ensures HeaderGet(req.headers, SignatureHeader) == Some("") ==> r == Some(true)
    ensures r.None? <==> (cfg.secret != "" &&
      (HeaderGet(req.headers, SignatureHeader).None? ||
       (HeaderGet(req.headers, SignatureHeader).value != "" &&
        !(IsAscii(HeaderGet(req.headers, SignatureHeader).value) &&
          IsAscii(ExpectedSignature(prims, cfg.secret, req.rawBody))))))
    ensures r == Some(false) ==>
      HeaderGet(req.headers, SignatureHeader).value != ExpectedSignature(prims, cfg.secret, req.rawBody)
  {
    if cfg.secret == "" then Some(true)
    else match HeaderGet(req.headers, SignatureHeader)
      case None => None
      case Some(sig) =>
        if sig == "" then Some(true)
        else CompareDigest(ExpectedSignature(prims, cfg.secret, req.rawBody), sig)
  }

  /** `body_filter`: the shared body check, with `repository.url` and
      `repository.size` logged. */
  function BodyFilter(cfg: Config, req: Request): (ok: bool)
    ensures ok <==> Payload.IsPushPayload(req.json, cfg.repoName, ["url", "size"])
  {
    Payload.FilterBodyIsPushPayload(req.json, cfg.repoName, ["url", "size"]);
    Payload.FilterBody(req.json, cfg.repoName, ["url", "size"])
  }

  /** A secret/header emptiness mismatch in either direction fails. */
  lemma HeaderCheckParity(cfg: Config, req: Request)
    requires HeaderGet(req.headers, SignatureHeader).Some?
    requires !ParityOk(cfg.secret, HeaderGet(req.headers, SignatureHeader).value)
    ensures !HeaderCheck(cfg, req)
  {
  }

  /** Event, presence and parity are all the header check asks for. */
  lemma HeaderCheckSufficient(cfg: Config, req: Request)
    requires HeaderGet(req.headers, EventHeader) == Some(PushEvent)
    requires HeaderGet(req.headers, SignatureHeader).Some?
    requires ParityOk(cfg.secret, HeaderGet(req.headers, SignatureHeader).value)
    ensures HeaderCheck(cfg, req)
  {
  }

  /** With a secret and a non-empty ASCII header the outcome is the
      comparison with the expected signature of the raw body. */
  lemma SignatureIsDigestComparison(cfg: Config, req: Request, prims: Primitives)
    requires cfg.secret != ""
    requires HeaderGet(req.headers, SignatureHeader).Some? && HeaderGet(req.headers, SignatureHeader).value != ""
    requires IsAscii(HeaderGet(req.headers, SignatureHeader).value)
    requires IsAscii(ExpectedSignature(prims, cfg.secret, req.rawBody))
    ensures Signature(cfg, req, prims) ==
      Some(HeaderGet(req.headers, SignatureHeader).value == ExpectedSignature(prims, cfg.secret, req.rawBody))
  {
  }

  /** For one secret and one body at most one non-empty header value is
      accepted: any other value is refused or raises. */
  lemma TamperedSignatureRejected(cfg: Config, req1: Request, req2: Request, prims: Primitives)
    requires cfg.secret != "" && req1.rawBody == req2.rawBody
    requires HeaderGet(req1.headers, SignatureHeader).Some? && HeaderGet(req1.headers, SignatureHeader).value != ""
    requires HeaderGet(req2.headers, SignatureHeader).Some? && HeaderGet(req2.headers, SignatureHeader).value != ""
    requires HeaderGet(req1.headers, SignatureHeader) != HeaderGet(req2.headers, SignatureHeader)
    requires Signature(cfg, req1, prims) == Some(true)
    ensures Signature(cfg, req2, prims) != Some(true)
  {
  }

  /** The headers a GitHub sender attaches, named as the server iterates
      them (`X-Github-Event`). */
  function SignedHeaders(prims: Primitives, secret: string, body: seq<byte>): seq<(string, string)> {
    var sig := if secret == "" then "" else ExpectedSignature(prims, secret, body);
    [("X-Github-Event", PushEvent), (SignatureHeader, sig)]
  }

  lemma SignedHeadersLookup(prims: Primitives, secret: string, body: seq<byte>)
    ensures var h := SignedHeaders(prims, secret, body);
      HeaderGet(h, EventHeader) == Some(PushEvent) && HeaderGet(h, SignatureHeader) == Some(h[1].1)
  {
    var h := SignedHeaders(prims, secret, body);
    assert Canon(h[0].0) == Canon(EventHeader);
    assert |Canon(h[0].0)| != |Canon(SignatureHeader)|;
  }

  /** Round trip: a request whose header is computed from the raw body
      with the configured secret passes both checks. */
  lemma SignedRequestAccepted(cfg: Config, req: Request, prims: Primitives)
    requires req.headers == SignedHeaders(prims, cfg.secret, req.rawBody)
    requires cfg.secret != "" ==> IsAscii(ExpectedSignature(prims, cfg.secret, req.rawBody))
    ensures HeaderCheck(cfg, req)
    ensures Signature(cfg, req, prims) == Some(true)
  {
    SignedHeadersLookup(prims, cfg.secret, req.rawBody);
  }
}
