# git-webhook-html: webhook verification, modelled in Dafny

git-webhook-html is a small Flask service. It receives push webhooks from
GitHub or Gitee on `POST /api/docs`. It checks each delivery and then
pulls the local checkout and rebuilds the static documentation with Hugo
(the mdBook build in `mdbook_cmd.py` raises before it builds anything). The repository also holds a Codeup verifier (`codeup_hook.py`) that
the handler never reaches. This project models the part that decides whether
a delivery is accepted, and proves properties of it:

- **The three verifiers** (`GiteeHook`, `GitHubHook`, and `CodeupHook` for
  the unreached Codeup verifier). Each one has three checks:
  - `HeaderCheck`: the event header, the signature header and, for Gitee, the
    timestamp header with its one-hour window.
  - `Signature`: the Gitee HMAC token, the GitHub HMAC of the raw body, or the
    Codeup plain-secret token.
  - `BodyFilter`: the repository-name check and the commit logging.
- **The `merged_deploy` handler** (`Server`). It scans header names for a
  provider token, runs the three checks in order, then runs the repository
  update and the build. It maps each outcome to its fixed reply.
- **`get_repo_from_url`** (`Util`). It derives the local checkout directory
  name from the clone URL.

Shared pieces:

- `Webhook` holds the request, the configuration, the header lookup (case-
  and dash-insensitive, as the WSGI header map is) and `hmac.compare_digest`.
- `Json` holds the Python view of a decoded body: truth value, `v[key]`,
  `len` and iteration.
- `Payload` holds the `try` block the three `body_filter`s share.

Cryptography is never computed. HMAC-SHA256, Base64, hex encoding and UTF-8
encoding are function-valued fields of a `Primitives` value that callers
pass in, so every theorem holds for any such functions. A Python exception
is a value in the model:

- In `body_filter`, an exception is caught and gives `false`.
- In `signature`, the result is `Option<bool>`. `None` means the call raises:
  a missing header gives `KeyError`, and a non-ASCII string passed to
  `hmac.compare_digest` gives `TypeError`.
- The handler turns such a raise into Flask's 500 "Internal Server Error".

The clock, and whether `git pull` and the document build succeed, come in as
a `World` value. Each `Response` records the stages that ran (`trace`), so
the contracts can state that a failed check stops the pipeline.

Consequences of the code as written that are easy to miss. The model
follows the code:

- **The Codeup verifier is unreachable.** `main.py` imports only the GitHub
  and Gitee verifiers and scans only for `X-Github` and `X-Gitee`. A
  correctly signed Codeup push is therefore answered 400 "headers error!"
  (`Server.CodeupPushRejected`), although `codeup_hook.py` would accept it.
- **A GitHub body needs `repository.size`.** The GitHub `body_filter` reads
  `repository['size']` while logging. A signed push whose repository object
  has only `name` and `url` is answered 400 "body error!", not 201
  (`Server.GitHubPushWithoutSizeRejected`).
- **Non-ASCII signatures give a 500.** A configured secret plus a signature
  header holding a non-ASCII character makes `hmac.compare_digest` raise, and
  the handler then answers 500 rather than 400 "hook auth error!".
- **The provider scan is case-sensitive.** It matches the header name as the
  server iterates it (`X-Github-Event`), so it is a plain substring test.
  The verifiers' own lookups ignore case.

## Model

| member | source | states |
|---|---|---|
| Webhook.HeaderGet | gitee_hook.py:36-43 | `name in headers` holds exactly when some header matches the name up to case and `-`/`_`; `headers[name]` then yields the value of a matching header |
| Webhook.CompareDigest | github_hook.py:47 | `hmac.compare_digest` answers only when both strings are ASCII (otherwise it raises), and then answers exactly whether they are equal |
| Json.Field | gitee_hook.py:76-77 | a dict built from the members holds `key` exactly when some member is named `key`, and its value is that of the last member so named |
| Json.GetItem | gitee_hook.py:76-77 | `v[key]` succeeds exactly when `v` is a dict holding `key`, and yields the value of the last member named `key` |
| Json.Iter | gitee_hook.py:83-85 | `len`/iteration are defined exactly for lists, strings and dicts; non-list items are strings; there are no items exactly when the value is falsy |
| Payload.NonListCommitsRejected | gitee_hook.py:83-89 | a truthy `commits` value that is not a list (a string or a dict) makes the commit loop raise |
| Payload.FilterBody | gitee_hook.py:71-93 | the `try` block as written returns true only for a dict body whose `repository['name']` is the local repository name |
| Payload.FilterBodyIsPushPayload | gitee_hook.py:71-93 | the `try` block returns true exactly for push payloads: a dict whose `repository` dict names the local repository, has every logged field, and whose non-empty `commits` is a list of dicts with `timestamp` and `message` |
| GiteeHook.DecimalRoundTrip | gitee_hook.py:47-51 | a timestamp written in decimal passes `isdigit` and `int()` reads back the same number |
| GiteeHook.HeaderCheck | gitee_hook.py:33-54 | acceptance implies the event is "Push Hook", the token and timestamp headers exist, secret/token parity holds, and the timestamp is digits within 3600000 ms of now |
| GiteeHook.Signature | gitee_hook.py:56-66 | without a secret it passes; it raises exactly when, with a secret, the token header is missing, or the token is non-empty and the timestamp header is missing or the token or expected token is non-ASCII; a refusal implies a secret, a non-empty token, and a token different from Base64(HMAC(secret, timestamp "\n" secret)) |
| GiteeHook.BodyFilter | gitee_hook.py:68-93 | accepts exactly the push payloads that carry `repository.url` |
| GiteeHook.HeaderCheckParity | gitee_hook.py:44-46 | a secret with an empty token, or a token without a secret, fails the header check |
| GiteeHook.HeaderCheckNeedsDigits | gitee_hook.py:47-48 | a timestamp that is not all digits, including the empty one, fails |
| GiteeHook.HeaderCheckWindow | gitee_hook.py:50-52 | once the other checks pass, acceptance holds exactly when the time difference is within ±3600000 ms, bounds included |
| GiteeHook.SignatureIsTokenComparison | gitee_hook.py:59-65 | with a secret and a non-empty ASCII token, the verdict is the equality of the token with the expected token |
| GiteeHook.SignatureEmptyTokenPasses | gitee_hook.py:59-66 | an empty token header passes the signature check |
| GiteeHook.SignatureIgnoresBody | gitee_hook.py:56-66 | two requests with the same headers get the same signature verdict, whatever their bodies |
| GiteeHook.HeaderCheckDefinesSignature | gitee_hook.py:39-42 | after a passed header check, the signature call can raise only on a non-ASCII token or expected token, never with a `KeyError` |
| GiteeHook.SignedHeadersLookup | gitee_hook.py:23-25 | the three headers a sender attaches are each found under their own name |
| GiteeHook.SignedRequestAccepted | gitee_hook.py:33-66 | round trip: a request signed with the configured secret and stamped within the hour passes the header and signature checks |
| GiteeHook.StaleRequestRejected | gitee_hook.py:50-52 | the same request stamped two hours before now fails the header check |
| GitHubHook.HeaderCheck | github_hook.py:26-38 | acceptance implies the event is "push", the signature header exists and secret/signature parity holds |
| GitHubHook.Signature | github_hook.py:40-48 | without a secret, or with an empty header, it passes; it raises exactly when, with a secret, the header is missing or a non-empty header or the expected value is non-ASCII; a refusal implies the header differs from "sha256=" + hex(HMAC(secret, raw body)) |
| GitHubHook.BodyFilter | github_hook.py:50-75 | accepts exactly the push payloads that carry `repository.url` and `repository.size` |
| GitHubHook.HeaderCheckParity | github_hook.py:35-37 | a secret/signature emptiness mismatch in either direction fails |
| GitHubHook.HeaderCheckSufficient | github_hook.py:29-38 | event "push", a present signature header and parity suffice to pass |
| GitHubHook.SignatureIsDigestComparison | github_hook.py:43-47 | with a secret and a non-empty ASCII header, the verdict is the equality of the header with the expected signature of the raw body |
| GitHubHook.TamperedSignatureRejected | github_hook.py:43-47 | for one secret and one body, at most one non-empty header value is accepted |
| GitHubHook.SignedHeadersLookup | github_hook.py:19-20 | the headers a sender attaches are found under the verifier's names |
| GitHubHook.SignedRequestAccepted | github_hook.py:26-48 | round trip: a header computed from the raw body with the configured secret passes both checks |
| CodeupHook.HeaderCheck | codeup_hook.py:25-38 | acceptance implies the event is "Push Hook", the token header exists and parity holds |
| CodeupHook.Signature | codeup_hook.py:40-45 | it raises exactly when a secret is set and the token header is missing; it refuses exactly when a secret is set and a non-empty token differs from it |
| CodeupHook.HeaderCheckSufficient | codeup_hook.py:28-38 | event "Push Hook", a present token header and parity suffice to pass |
| CodeupHook.HeaderCheckParity | codeup_hook.py:34-36 | a secret/token emptiness mismatch in either direction fails |
| CodeupHook.SignatureIsSecretEquality | codeup_hook.py:43-44 | with a secret and a non-empty token, the verdict is token == secret |
| CodeupHook.BodyFilter | codeup_hook.py:47-72 | accepts exactly the push payloads that carry `repository.url` |
| CodeupHook.SignedRequestAccepted | codeup_hook.py:25-45 | round trip: a request carrying the secret as its token passes both checks |
| Server.FirstProvider | main.py:131-139 | the scan never selects Codeup |
| Server.FirstProviderNone | main.py:131-139 | nothing is selected exactly when no header name contains `X-Github` or `X-Gitee` |
| Server.FirstProviderFirstMatch | main.py:131-137 | the earliest header name that selects a provider decides, with `X-Github` tested before `X-Gitee` |
| Server.SelectProvider | main.py:131-139 | the `for … break … else` loop returns the provider the first matching header selects, or none |
| Server.Verify | main.py:146-166 | the reply is one of the seven known replies; the stages run form a prefix of the pipeline; the update runs only after all three checks passed; 201 exactly when every stage ran and succeeded |
| Server.Deploy | main.py:130-166 | the reply is a known reply; no stage runs exactly when no provider is selected; the update runs only after the selected verifier's three checks passed |
| Server.MergedDeploy | main.py:130-166 | the handler's reply is the one `Deploy` specifies |
| Server.NoVendorHeaderRejected | main.py:138-139 | without a provider header the reply is 400 "headers error!" and no check runs |
| Server.CodeupNameSelectsNothing | main.py:132-135 | neither Codeup header name contains `X-Github` or `X-Gitee` |
| Server.CodeupHeadersSelectNothing | main.py:131-139 | a Codeup sender's headers select no provider |
| Server.CodeupPushRejected | main.py:131-139 | a Codeup push that its own verifier accepts is still answered 400 "headers error!" |
| Server.HeaderCheckFailureStops | main.py:146-147 | a failed header check answers 400 "headers error!" after that stage alone |
| Server.SignatureFailureStops | main.py:149-150 | a refused signature answers 400 "hook auth error!" without running the body check |
| Server.SignatureRaiseAnswers500 | main.py:149-150 | a signature check that raises answers 500 "Internal Server Error" after the header and signature stages, without running the body check |
| Server.BodyFailureStops | main.py:152-153 | a refused body answers 400 "body error!" without touching the repository |
| Server.ExternalStepOutcomes | main.py:157-166 | after the checks, a failed update answers 500 "repo error!" and skips the build; a failed build answers 500 "doc error!"; otherwise 201 "success" |
| Server.RepositoryMismatchRejected | main.py:152-153 | a push naming another repository is answered 400 "body error!" and nothing is built |
| Server.SignedGitHubPushSucceeds | main.py:129-166 | a GitHub push signed over its raw body, naming the local repository, with working update and build, is answered 201 |
| Server.GiteeHeadersSelectGitee | main.py:135-136 | a Gitee sender's headers select the Gitee verifier |
| Server.SignedGiteePushSucceeds | main.py:129-166 | a Gitee push signed with the secret, stamped within the hour and naming the local repository is answered 201 |
| Server.GitHubPushWithoutSizeRejected | github_hook.py:63-64 | the signed GitHub push `{"repository":{"name":"demo","url":"u"},"commits":[]}` is answered 400 "body error!" because `repository.size` is missing |
| Util.UrlPath | util.py:15 | the path `urlparse` extracts never holds the fragment or query delimiters `#` and `?`; `Util.HttpsUrlPath` gives its exact value for `https://host/path` |
| Util.PathTail | util.py:18 | `os.path.split(path)[-1]` is the suffix after the last `/`: it holds no `/` and is either the whole path or preceded by `/` |
| Util.SplitExtRoot | util.py:18 | `os.path.splitext(p)[0]` is a prefix of `p` |
| Util.SplitExtStripsLastExtension | util.py:18 | on a name without `/`, something is removed exactly when a non-dot precedes some dot; what is removed is the last dot and what follows it |
| Util.GetRepoFromUrl | util.py:11-19 | the result is absent exactly when the URL's path is empty; otherwise it is the path's last segment, shortened exactly when a non-dot precedes some dot in it, and then by the last dot and what follows it |
| Util.HttpsScheme | util.py:15 | a URL beginning `https:` has scheme `https` |
| Util.HttpsUrlPath | util.py:15 | for `https://host/path` without `?`, `#` or `;`, the parsed path is exactly `/path` |
| Util.OwnerPathTail | util.py:18 | the last segment of `/owner/name` is `name` |
| Util.GitSuffixStripped | util.py:18 | `splitext` removes `.git` from a non-empty dot-free name |
| Util.ClonePathGivesName | util.py:15-19 | a URL whose path is `/owner/name.git` gives `name` |
| Util.CloneUrlGivesName | util.py:11-19 | every `https://host/owner/name.git` clone URL with a dot-free name gives `name` |
| Util.DiskAnnExample | util.py:12-13 | `https://github.com/microsoft/DiskANN.git` gives `DiskANN` |
| Util.BareHostHasNoRepo | util.py:16-17 | `https://github.com` has an empty path and gives no name |
| Util.OnlyLastExtensionStripped | util.py:18 | `a.b.git` gives `a.b` |
| Util.LeadingDotNameKept | util.py:18 | `.git` is kept whole |
| Util.TrailingSlashGivesEmpty | util.py:18 | a path ending in `/` gives the empty name |

## Left out

- Startup in `main.py` (lines 29-127) is not modelled: logging setup, environment variables, the initial clone or pull, and the first build. `Config` stands for its outcome: the secret and the local repository name.
- `util.execute_command` and `HugoCmd.build` run shell commands. They are not modelled. Their success is the `World.updateOk` and `World.buildOk` inputs.
- `MdbookCmd.build` is not modelled. It formats `'mdbook build {path} -d {target}'` with a positional argument (mdbook_cmd.py:19), so it raises `KeyError: 'path'` whenever `mdbook --version` succeeds. With the mdBook tool the startup build at main.py:117-118 therefore raises or exits, and the handler is never served. `World.buildOk` stands for the Hugo build only.
- HMAC-SHA256, Base64, hex and UTF-8 encoding are uninterpreted parameters. The constant-time behaviour of `hmac.compare_digest` is not modelled; only its result and its `TypeError` on non-ASCII strings are.
- The claim that a one-bit change in the body makes GitHub reject is not modelled. It needs collision resistance of HMAC, which a property over all `Primitives` cannot assume. `GitHubHook.TamperedSignatureRejected` covers the header side.
- HTTP parsing is not modelled. Header lookup folds only ASCII case and `-`/`_`. JSON decoding is taken as given (`Request.json`, `None` for an empty or invalid body).
- JSON numbers are integers only. Floats play no part in the checks.
- `GiteeHook.HeaderCheck`: the clock is an integer `nowMs`, taken as `round(time.time() * 1000)`. Floating-point rounding of `time.time()` is not modelled.
- `GiteeHook.HeaderCheck`: `str.isdigit()` is modelled on ASCII digits only, and `int()` of the timestamp is taken never to raise. Python's `isdigit` also accepts other Unicode digits such as `¹`, `²` and `³`, and `int()` then raises `ValueError`. It also raises on a digit-only timestamp longer than 4300 characters, the limit recent Python versions put on `int(str)`. In both cases the handler answers 500 "Internal Server Error", where the model's header check answers false and the handler 400 "headers error!".
- `GiteeHook.HeaderCheck`, `GitHubHook.HeaderCheck` and `CodeupHook.HeaderCheck` state only what acceptance implies. The converse is given as separate lemmas, not as a clause on the function: `GiteeHook.HeaderCheckWindow`, `GitHubHook.HeaderCheckSufficient` and `CodeupHook.HeaderCheckSufficient`.
- Logging is not modelled. Only the field reads that can raise are kept, because they decide `body_filter`.
- `Util.UrlPath` models the path that `urllib.parse.urlparse` extracts. It does not model the stripping of whitespace and control characters, or the `ValueError` checks on the authority (IPv6 brackets, and a non-ASCII authority whose NFKC form holds `/`, `?`, `#`, `@` or `:`).
- Concurrency between deliveries is not modelled. The handler is one request at a time.
