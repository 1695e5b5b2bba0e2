/** What every webhook verifier is given: the request (headers in the order
    the server iterates them, the raw body and the parsed JSON), the service
    configuration, and the cryptographic primitives, which stay uninterpreted:
    every property proved here holds for every choice of them. */
module Webhook {
  import opened Wrappers
  import opened Json

  newtype byte = x: int | 0 <= x < 256

  /** A header is a (name, value) pair; `json` is what `request.get_json()`
      yields, `None` for an empty or unparseable body. */
  datatype Request = Request(headers: seq<(string, string)>, rawBody: seq<byte>, json: Option<Json>)

  /** The shared secret ("" when none is configured) and the local
      repository name every push must name. */
  datatype Config = Config(secret: string, repoName: string)

  /** UTF-8 encoding, HMAC-SHA256 (key, message), Base64 and lowercase hex
      encoding of a digest. */
  datatype Primitives = Primitives(
    utf8: string -> seq<byte>,
    hmacSha256: (seq<byte>, seq<byte>) -> seq<byte>,
    base64: seq<byte> -> string,
    hexDigest: seq<byte> -> string)

  /** A header name as the server's environment keys it: upper case, with
      `-` read as `_`; lookups compare names in this form. */
  function CanonChar(c: char): char {
    if 'a' <= c <= 'z' then (c as int - 32) as char
    else if c == '-' then '_'
    else c
  }

  function Canon(name: string): (r: string)
    ensures |r| == |name| && forall i :: 0 <= i < |name| ==> r[i] == CanonChar(name[i])
  {
    seq(|name|, i requires 0 <= i < |name| => CanonChar(name[i]))
  }

  predicate SameHeader(a: string, b: string) {
    Canon(a) == Canon(b)
  }

  /** `headers[name]`, and `name in headers` as `HeaderGet(...).Some?`:
      the value of the first header whose name matches ignoring case. */
  function HeaderGet(headers: seq<(string, string)>, name: string): (r: Option<string>)
    ensures r.None? <==> forall i :: 0 <= i < |headers| ==> !SameHeader(headers[i].0, name)
    ensures r.Some? ==> exists i :: 0 <= i < |headers| && SameHeader(headers[i].0, name) && headers[i].1 == r.value
  {
    if headers == [] then None
    else if SameHeader(headers[0].0, name) then Some(headers[0].1)
    else
      var r := HeaderGet(headers[1..], name);
      assert forall i :: 1 <= i < |headers| ==> headers[1..][i - 1] == headers[i];
      r
  }

  /** The secret/header parity rule shared by all providers: a configured
      secret needs a non-empty signature header, and no secret needs an
      empty one. */
  predicate ParityOk(secret: string, signatureHeader: string) {
    (secret == "") == (signatureHeader == "")
  }

  predicate IsAscii(s: string) {
    forall i :: 0 <= i < |s| ==> s[i] as int < 128
  }

  /** `hmac.compare_digest` on two strings: equality, and a `TypeError`
      (here `None`) when either holds a non-ASCII character. */
  function CompareDigest(a: string, b: string): (r: Option<bool>)
    ensures r.Some? <==> IsAscii(a) && IsAscii(b)
    ensures r.Some? ==> (r.value <==> a == b)
  {
    if IsAscii(a) && IsAscii(b) then Some(a == b) else None
  }
}
