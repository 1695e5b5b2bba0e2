/** The Codeup verifier: event "Push Hook" and a token header that must
    equal the shared secret itself. */
module CodeupHook {
  import opened Wrappers
  import opened Webhook
  import Payload

  const EventHeader := "X-Codeup-Event"
  const TokenHeader := "X-Codeup-Token"
  const PushEvent := "Push Hook"

  /** `header_check`: event and token headers and the parity rule. */
  function HeaderCheck(cfg: Config, req: Request): (ok: bool)
    ensures ok ==> HeaderGet(req.headers, EventHeader) == Some(PushEvent)
    ensures ok ==> HeaderGet(req.headers, TokenHeader).Some?
    ensures ok ==> ParityOk(cfg.secret, HeaderGet(req.headers, TokenHeader).value)
  {
    var h := req.headers;
    if HeaderGet(h, EventHeader).None? || HeaderGet(h, EventHeader).value != PushEvent then false
    else if HeaderGet(h, TokenHeader).None? then false
    else
      var token := HeaderGet(h, TokenHeader).value;
      if (cfg.secret != "" && token == "") || (cfg.secret == "" && token != "") then false
      else true
  }

  /** `signature`: plain string equality of token and secret; `None` when
      a secret is configured and the token header is missing (`KeyError`). */
  function Signature(cfg: Config, req: Request): (r: Option<bool>)
    ensures r.None? <==> cfg.secret != "" && HeaderGet(req.headers, TokenHeader).None?
    ensures r == Some(false) <==> (cfg.secret != "" && HeaderGet(req.headers, TokenHeader).Some? &&
      HeaderGet(req.headers, TokenHeader).value != "" && HeaderGet(req.headers, TokenHeader).value != cfg.secret)
  {
    if cfg.secret == "" then Some(true)
    else match HeaderGet(req.headers, TokenHeader)
      case None => None
      case Some(token) => if token == "" then Some(true) else Some(cfg.secret == token)
  }

  /** A secret/token emptiness mismatch in either direction fails. */
  lemma HeaderCheckParity(cfg: Config, req: Request)
    requires HeaderGet(req.headers, TokenHeader).Some?
    requires !ParityOk(cfg.secret, HeaderGet(req.headers, TokenHeader).value)
    ensures !HeaderCheck(cfg, req)
  {
  }

  /** Event, presence and parity are all the header check asks for. */
  lemma HeaderCheckSufficient(cfg: Config, req: Request)
    requires HeaderGet(req.headers, EventHeader) == Some(PushEvent)
    requires HeaderGet(req.headers, TokenHeader).Some?
    requires ParityOk(cfg.secret, HeaderGet(req.headers, TokenHeader).value)
    ensures HeaderCheck(cfg, req)
  {
  }

  /** With a secret configured and a non-empty token, the token is
      accepted exactly when it is the secret. */
  lemma SignatureIsSecretEquality(cfg: Config, req: Request)
    requires cfg.secret != ""
    requires HeaderGet(req.headers, TokenHeader).Some? && HeaderGet(req.headers, TokenHeader).value != ""
    ensures Signature(cfg, req) == Some(HeaderGet(req.headers, TokenHeader).value == cfg.secret)
  {
  }

  /** `body_filter`: the shared body check, with `repository.url` logged. */
  function BodyFilter(cfg: Config, req: Request): (ok: bool)
    ensures ok <==> Payload.IsPushPayload(req.json, cfg.repoName, ["url"])
  {
    Payload.FilterBodyIsPushPayload(req.json, cfg.repoName, ["url"]);
    Payload.FilterBody(req.json, cfg.repoName, ["url"])
  }

  /** The headers a Codeup sender attaches: the secret is the token. */
  function SignedHeaders(secret: string): seq<(string, string)> {
    [(EventHeader, PushEvent), (TokenHeader, secret)]
  }

  /** Round trip: a request carrying the configured secret as its token
      passes both checks, with or without a secret. */
  lemma SignedRequestAccepted(cfg: Config, req: Request)
    requires req.headers == SignedHeaders(cfg.secret)
    ensures HeaderCheck(cfg, req)
    ensures Signature(cfg, req) == Some(true)
  {
    assert Canon(EventHeader)[9] != Canon(TokenHeader)[9];
    assert req.headers[1..] == [req.headers[1]];
  }
}
