/** The `/api/docs` POST handler: pick a verifier from the header names, run
    its three checks in order, then update the repository and rebuild the
    documents, mapping each outcome to a fixed message and status code. */
module Server {
  import opened Wrappers
  import opened Json
  import opened Webhook
  import Payload
  import GiteeHook
  import GitHubHook
  import CodeupHook

  datatype Provider = GitHub | Gitee | Codeup

  /** The steps of the handler that consult a verifier or the outside world. */
  datatype Stage = CheckHeaders | CheckSignature | CheckBody | UpdateRepo | BuildDocs

  const AllStages: seq<Stage> := [CheckHeaders, CheckSignature, CheckBody, UpdateRepo, BuildDocs]

  /** The reply, with the stages that ran to produce it, in order. */
  datatype Response = Response(message: string, status: int, trace: seq<Stage>)

  /** What the handler gets from outside the request: the clock in epoch
      milliseconds, the crypto primitives, and whether `git pull` and the
      document build succeed when run. */
  datatype World = World(nowMs: int, prims: Primitives, updateOk: bool, buildOk: bool)

  const HeadersError := "headers error!"
  const AuthError := "hook auth error!"
  const BodyError := "body error!"
  const RepoError := "repo error!"
  const DocError := "doc error!"
  const Success := "success"
  /** Flask's reply when the view raises an exception it does not catch. */
  const InternalError := "Internal Server Error"

  const GitHubToken := "X-Github"
  const GiteeToken := "X-Gitee"

  /** Python's substring test `t in s`. */
  predicate IsSubstring(s: string, t: string)
    decreases |s|
  {
    |t| <= |s| && (s[..|t|] == t || IsSubstring(s[1..], t))
  }

  lemma {:induction false} SubstringHead(s: string, t: string)
    requires t != [] && IsSubstring(s, t)
    ensures t[0] in s
    decreases |s|
  {
    if s[..|t|] != t {
      SubstringHead(s[1..], t);
    } else {
      assert s[0] == t[0];
    }
  }

  /** A name whose only occurrence of `t[0]` is its first character, and
      which does not start with `t`, does not contain `t`. */
  lemma NotContained(s: string, t: string)
    requires t != [] && s != [] && t[0] !in s[1..]
    requires |t| > |s| || s[..|t|] != t
    ensures !IsSubstring(s, t)
  {
    if IsSubstring(s, t) {
      SubstringHead(s[1..], t);
    }
  }

  /** The provider one header name selects; the GitHub test comes first. */
  function ProviderOf(name: string): Option<Provider> {
    if IsSubstring(name, GitHubToken) then Some(GitHub)
    else if IsSubstring(name, GiteeToken) then Some(Gitee)
    else None
  }

  /** The provider of the first header name that selects one. The
      dispatcher knows no Codeup test, so it never selects Codeup. */
  function FirstProvider(headers: seq<(string, string)>): (r: Option<Provider>)
    ensures r != Some(Codeup)
  {
    if headers == [] then None
    else if ProviderOf(headers[0].0).Some? then ProviderOf(headers[0].0)
    else FirstProvider(headers[1..])
  }

  /** No provider is selected exactly when no header name contains either
      namespace token. */
  lemma {:induction false} FirstProviderNone(headers: seq<(string, string)>)
    ensures FirstProvider(headers).None? <==>
      forall i :: 0 <= i < |headers| ==> ProviderOf(headers[i].0).None?
  {
    if headers != [] {
      FirstProviderNone(headers[1..]);
      assert forall i :: 1 <= i < |headers| ==> headers[1..][i - 1] == headers[i];
    }
  }

  /** First match wins: the selected provider is the one of the earliest
      header name that selects any. */
  lemma {:induction false} FirstProviderFirstMatch(headers: seq<(string, string)>, i: nat)
    requires i < |headers| && ProviderOf(headers[i].0).Some?
    requires forall j :: 0 <= j < i ==> ProviderOf(headers[j].0).None?
    ensures FirstProvider(headers) == ProviderOf(headers[i].0)
  {
    if i > 0 {
      assert forall j :: 0 <= j < i - 1 ==> headers[1..][j] == headers[j + 1];
      FirstProviderFirstMatch(headers[1..], i - 1);
    }
  }

  /** The `for k, _ in request.headers: ... break ... else` loop. */
  method SelectProvider(headers: seq<(string, string)>) returns (found: Option<Provider>)
    ensures found == FirstProvider(headers)
  {
    var i := 0;
    while i < |headers|
      invariant 0 <= i <= |headers|
      invariant FirstProvider(headers[i..]) == FirstProvider(headers)
    {
      var name := headers[i].0;
      if IsSubstring(name, GitHubToken) {
        return Some(GitHub);
      }
      if IsSubstring(name, GiteeToken) {
        return Some(Gitee);
      }
      assert headers[i..][1..] == headers[i + 1..];
      i := i + 1;
    }
    return None;
  }

  function HeaderCheck(p: Provider, cfg: Config, req: Request, nowMs: int): bool {
    match p
    case GitHub => GitHubHook.HeaderCheck(cfg, req)
    case Gitee => GiteeHook.HeaderCheck(cfg, req, nowMs)
    case Codeup => CodeupHook.HeaderCheck(cfg, req)
  }

  function Signature(p: Provider, cfg: Config, req: Request, prims: Primitives): Option<bool> {
    match p
    case GitHub => GitHubHook.Signature(cfg, req, prims)
    case Gitee => GiteeHook.Signature(cfg, req, prims)
    case Codeup => CodeupHook.Signature(cfg, req)
  }

  function BodyFilter(p: Provider, cfg: Config, req: Request): bool {
    match p
    case GitHub => GitHubHook.BodyFilter(cfg, req)
    case Gitee => GiteeHook.BodyFilter(cfg, req)
    case Codeup => CodeupHook.BodyFilter(cfg, req)
  }

  /** Every reply the handler can give. */
  predicate KnownReply(resp: Response) {
    || (resp.message, resp.status) == (HeadersError, 400)
    || (resp.message, resp.status) == (AuthError, 400)
    || (resp.message, resp.status) == (BodyError, 400)
    || (resp.message, resp.status) == (RepoError, 500)
    || (resp.message, resp.status) == (DocError, 500)
    || (resp.message, resp.status) == (Success, 201)
    || (resp.message, resp.status) == (InternalError, 500)
  }

  /** The handler once provider `p` is chosen: each step runs only when the
      one before it succeeded, and the external steps run only after all
      three checks passed. */
  function Verify(p: Provider, cfg: Config, req: Request, world: World): (resp: Response)
    ensures KnownReply(resp)
    ensures resp.trace != [] && resp.trace <= AllStages
    ensures UpdateRepo in resp.trace ==>
      HeaderCheck(p, cfg, req, world.nowMs) && Signature(p, cfg, req, world.prims) == Some(true) &&
      BodyFilter(p, cfg, req)
    ensures resp.status == 201 <==>
      resp.trace == AllStages && world.updateOk && world.buildOk
  {
    if !HeaderCheck(p, cfg, req, world.nowMs) then Response(HeadersError, 400, AllStages[..1])
    else match Signature(p, cfg, req, world.prims)
      case None => Response(InternalError, 500, AllStages[..2])
      case Some(false) => Response(AuthError, 400, AllStages[..2])
      case Some(true) =>
        if !BodyFilter(p, cfg, req) then Response(BodyError, 400, AllStages[..3])
        else if !world.updateOk then Response(RepoError, 500, AllStages[..4])
        else if !world.buildOk then Response(DocError, 500, AllStages)
        else Response(Success, 201, AllStages)
  }

  /** `merged_deploy` as a function of the request and the world. */
  function Deploy(cfg: Config, req: Request, world: World): (resp: Response)
    ensures KnownReply(resp) && resp.trace <= AllStages
    ensures resp.trace == [] <==> FirstProvider(req.headers).None?
    ensures UpdateRepo in resp.trace ==>
      var p := FirstProvider(req.headers).value;
      HeaderCheck(p, cfg, req, world.nowMs) && Signature(p, cfg, req, world.prims) == Some(true) &&
      BodyFilter(p, cfg, req)
  {
    match FirstProvider(req.headers)
    case None => Response(HeadersError, 400, [])
    case Some(p) => Verify(p, cfg, req, world)
  }

  /** The handler: the provider scan, then the checks and the build. */
  method MergedDeploy(cfg: Config, req: Request, world: World) returns (resp: Response)
    ensures resp == Deploy(cfg, req, world)
  {
    var found := SelectProvider(req.headers);
    if found.None? {
      return Response(HeadersError, 400, []);
    }
    resp := Verify(found.value, cfg, req, world);
  }

  /** Without a header name containing either namespace token the request
      is refused before any verifier is built. */
  lemma NoVendorHeaderRejected(cfg: Config, req: Request, world: World)
    requires forall i :: 0 <= i < |req.headers| ==>
      !IsSubstring(req.headers[i].0, GitHubToken) && !IsSubstring(req.headers[i].0, GiteeToken)
    ensures Deploy(cfg, req, world) == Response(HeadersError, 400, [])
  {
    FirstProviderNone(req.headers);
  }

  /** The header names a Codeup sender uses select no provider. */
  lemma CodeupHeadersSelectNothing(secret: string)
    ensures FirstProvider(CodeupHook.SignedHeaders(secret)).None?
  {
    var h := CodeupHook.SignedHeaders(secret);
    forall i | 0 <= i < |h| ensures ProviderOf(h[i].0).None? {
      CodeupNameSelectsNothing(h[i].0);
    }
    FirstProviderNone(h);
  }

  lemma CodeupNameSelectsNothing(name: string)
    requires name == CodeupHook.EventHeader || name == CodeupHook.TokenHeader
    ensures ProviderOf(name).None?
  {
    assert name[..8] == "X-Codeup" && name[..7] == "X-Codeu";
    NotContained(name, GitHubToken);
    NotContained(name, GiteeToken);
  }

  /** A correctly signed Codeup push is still refused: the scan never picks
      the Codeup verifier. */
  lemma CodeupPushRejected(cfg: Config, req: Request, world: World)
    requires req.headers == CodeupHook.SignedHeaders(cfg.secret)
    ensures CodeupHook.HeaderCheck(cfg, req) && CodeupHook.Signature(cfg, req) == Some(true)
    ensures Deploy(cfg, req, world) == Response(HeadersError, 400, [])
  {
    CodeupHook.SignedRequestAccepted(cfg, req);
    CodeupHeadersSelectNothing(cfg.secret);
  }

  /** A failed header check answers "headers error!" and consults neither
      the signature nor the body. */
  lemma HeaderCheckFailureStops(cfg: Config, req: Request, world: World, p: Provider)
    requires FirstProvider(req.headers) == Some(p)
    requires !HeaderCheck(p, cfg, req, world.nowMs)
    ensures Deploy(cfg, req, world) == Response(HeadersError, 400, [CheckHeaders])
  {
  }

  /** A refused signature answers "hook auth error!" without running the
      body check. */
  lemma SignatureFailureStops(cfg: Config, req: Request, world: World, p: Provider)
    requires FirstProvider(req.headers) == Some(p)
    requires HeaderCheck(p, cfg, req, world.nowMs) && Signature(p, cfg, req, world.prims) == Some(false)
    ensures Deploy(cfg, req, world) == Response(AuthError, 400, [CheckHeaders, CheckSignature])
  {
  }

  /** A signature check that raises (after a passed header check, only the
      `TypeError` of a non-ASCII string in `hmac.compare_digest`) escapes
      the handler: Flask answers 500 "Internal Server Error" without running
      the body check. */
  lemma SignatureRaiseAnswers500(cfg: Config, req: Request, world: World, p: Provider)
    requires FirstProvider(req.headers) == Some(p)
    requires HeaderCheck(p, cfg, req, world.nowMs) && Signature(p, cfg, req, world.prims).None?
    ensures Deploy(cfg, req, world) == Response(InternalError, 500, [CheckHeaders, CheckSignature])
  {
  }

  /** A refused body answers "body error!" and touches neither the
      repository nor the build. */
  lemma BodyFailureStops(cfg: Config, req: Request, world: World, p: Provider)
    requires FirstProvider(req.headers) == Some(p)
    requires HeaderCheck(p, cfg, req, world.nowMs) && Signature(p, cfg, req, world.prims) == Some(true)
    requires !BodyFilter(p, cfg, req)
    ensures Deploy(cfg, req, world) == Response(BodyError, 400, [CheckHeaders, CheckSignature, CheckBody])
  {
  }

  /** After the checks pass: a failed update answers "repo error!" and
      skips the build; a failed build answers "doc error!"; otherwise
      "success" with 201. */
  lemma ExternalStepOutcomes(cfg: Config, req: Request, world: World, p: Provider)
    requires FirstProvider(req.headers) == Some(p)
    requires HeaderCheck(p, cfg, req, world.nowMs) && Signature(p, cfg, req, world.prims) == Some(true)
    requires BodyFilter(p, cfg, req)
    ensures !world.updateOk ==>
      Deploy(cfg, req, world) == Response(RepoError, 500, [CheckHeaders, CheckSignature, CheckBody, UpdateRepo])
    ensures world.updateOk && !world.buildOk ==> Deploy(cfg, req, world) == Response(DocError, 500, AllStages)
    ensures world.updateOk && world.buildOk ==> Deploy(cfg, req, world) == Response(Success, 201, AllStages)
  {
  }

  /** End to end: a GitHub push signed over its raw body with the
      configured secret, naming the local repository, is built. */
  lemma SignedGitHubPushSucceeds(cfg: Config, req: Request, world: World)
    requires req.headers == GitHubHook.SignedHeaders(world.prims, cfg.secret, req.rawBody)
    requires IsAscii(GitHubHook.ExpectedSignature(world.prims, cfg.secret, req.rawBody))
    requires Payload.IsPushPayload(req.json, cfg.repoName, ["url", "size"])
    requires world.updateOk && world.buildOk
    ensures Deploy(cfg, req, world) == Response(Success, 201, AllStages)
  {
    GitHubHook.SignedRequestAccepted(cfg, req, world.prims);
    assert req.headers[0].0[..8] == GitHubToken;
  }

  /** The first header a Gitee sender uses selects the Gitee verifier. */
  lemma GiteeHeadersSelectGitee(prims: Primitives, secret: string, tsMs: nat)
    ensures FirstProvider(GiteeHook.SignedHeaders(prims, secret, tsMs)) == Some(Gitee)
  {
    var name := GiteeHook.SignedHeaders(prims, secret, tsMs)[0].0;
    assert name[..8][5] != GitHubToken[5];
    NotContained(name, GitHubToken);
    assert name[..7] == GiteeToken;
  }

  /** End to end: a Gitee push signed with the configured secret and
      stamped within the hour, naming the local repository, is built. */
  lemma SignedGiteePushSucceeds(cfg: Config, req: Request, world: World, tsMs: nat)
    requires req.headers == GiteeHook.SignedHeaders(world.prims, cfg.secret, tsMs)
    requires IsAscii(GiteeHook.ExpectedToken(world.prims, cfg.secret, GiteeHook.Decimal(tsMs)))
    requires cfg.secret != "" ==> GiteeHook.ExpectedToken(world.prims, cfg.secret, GiteeHook.Decimal(tsMs)) != ""
    requires GiteeHook.Abs(world.nowMs - tsMs) <= GiteeHook.TimestampLimit
    requires Payload.IsPushPayload(req.json, cfg.repoName, ["url"])
    requires world.updateOk && world.buildOk
    ensures Deploy(cfg, req, world) == Response(Success, 201, AllStages)
  {
    GiteeHook.SignedRequestAccepted(cfg, req, world.prims, tsMs, world.nowMs);
    GiteeHeadersSelectGitee(world.prims, cfg.secret, tsMs);
  }

  /** A GitHub push whose repository object lacks `size` is refused with
      "body error!" even when correctly signed: the handler reads
      `repository['size']` while logging. */
  lemma GitHubPushWithoutSizeRejected(cfg: Config, req: Request, world: World)
    requires cfg.secret == "abc" && cfg.repoName == "demo"
    requires req.headers == GitHubHook.SignedHeaders(world.prims, cfg.secret, req.rawBody)
    requires IsAscii(GitHubHook.ExpectedSignature(world.prims, cfg.secret, req.rawBody))
    requires req.json == Some(JObject([
      ("repository", JObject([("name", JString("demo")), ("url", JString("u"))])),
      ("commits", JArray([]))]))
    ensures Deploy(cfg, req, world) == Response(BodyError, 400, [CheckHeaders, CheckSignature, CheckBody])
  {
    GitHubHook.SignedRequestAccepted(cfg, req, world.prims);
    assert req.headers[0].0[..8] == GitHubToken;
    var repository := JObject([("name", JString("demo")), ("url", JString("u"))]);
    assert Field(req.json.value.members, "repository") == Some(repository);
    assert !HasKey(repository.members, "size");
  }

  /** Once the checks pass, a push naming another repository is refused
      with "body error!" and nothing is built. */
  lemma RepositoryMismatchRejected(cfg: Config, req: Request, world: World, p: Provider)
    requires FirstProvider(req.headers) == Some(p)
    requires HeaderCheck(p, cfg, req, world.nowMs) && Signature(p, cfg, req, world.prims) == Some(true)
    requires req.json.Some? && GetItem(req.json.value, "repository").Some?
    requires GetItem(GetItem(req.json.value, "repository").value, "name") != Some(JString(cfg.repoName))
    ensures Deploy(cfg, req, world) == Response(BodyError, 400, [CheckHeaders, CheckSignature, CheckBody])
  {
  }
}
