/** The bearer-token authorization decision of skynet/auth/jwt.py.

    `Authorize` runs four stages in a fixed order: decode the unverified
    header, require a `kid`, fetch the public key named by the `kid`, and
    verify the token with that key against a fixed algorithm allow-list.
    The first stage that fails ends the chain with a rejection.

    The JWT library, the SHA-256 hash and the HTTP client are foreign code;
    they appear as the oracles of a `Library` value. Every call into them is
    recorded in the returned `Run`, so that what was fetched, and with which
    key the token was verified, can be stated about the decision. */
module Jwt {
  import opened Wrappers

  /** Process-wide settings read at startup: the key-store base URL and the
      base key folder. */
  datatype Config = Config(pubKeysUrl: string, pubKeysFolder: string)

  predicate IsLowerHexDigit(c: char) {
    '0' <= c <= '9' || 'a' <= c <= 'f'
  }

  /** A SHA-256 digest written as 64 lower-case hexadecimal characters. */
  type HexDigest = s: string | |s| == 64 && forall i | 0 <= i < |s| :: IsLowerHexDigit(s[i])
    witness seq(64, _ => '0')

  /** What an HTTP GET returns when it does not raise: a status and a body. */
  datatype Response = Response(status: int, text: string)

  /** How verifying a token ends: it decodes, it raises the expired-signature
      error, or it raises any other error. */
  datatype DecodeResult = Decoded | ExpiredSignature | InvalidToken

  /** The foreign code the authorizer calls.
      - unverifiedHeader: the JWT header read without checking the signature,
        None when reading it raises;
      - sha256Hex: the hex digest of the UTF-8 bytes of a string;
      - httpGet: a blocking GET of a URL, Failure when it raises;
      - decode: verification of a token with a key text and a list of
        accepted algorithm names. */
  datatype Library = Library(
    unverifiedHeader: string -> Option<map<string, string>>,
    sha256Hex: string -> HexDigest,
    httpGet: string -> Result<Response>,
    decode: (string, string, seq<string>) -> DecodeResult)

  /** Why a token was rejected, one reason per stage that can fail. */
  datatype Reason = BadHeader | NoKid | FetchFailed | Expired | BadSignature

  /** The decision: the token is authorized, or it is rejected with a reason
      and the detail text the caller sees. */
  datatype Outcome = Authorized | Rejected(reason: Reason, detail: string)

  /** A call into foreign code made while deciding. */
  datatype Call =
    | ReadHeader(token: string)
    | Get(url: string)
    | Verify(token: string, key: string, algorithms: seq<string>)

  /** The decision together with the foreign calls made, in order. */
  datatype Run = Run(outcome: Outcome, calls: seq<Call>)

  /** The `kid` prefix of tokens issued for a tenant of the multi-tenant service. */
  const JaasPrefix: string := "vpaas-magic-cookie"

  /** The only algorithms a token may be signed with. */
  const AllowedAlgorithms: seq<string> := ["RS256", "HS512"]

  const HeaderDetail: string := "Failed to decode JWT header"
  const NoKidDetail: string := "Invalid token. No kid header."
  const FetchDetailPrefix: string := "Failed to retrieve public key. "
  const ExpiredDetail: string := "Expired token."
  const VerifyDetailPrefix: string := "Failed decoding JWT with public key "

  predicate StartsWith(s: string, prefix: string) {
    |prefix| <= |s| && s[..|prefix|] == prefix
  }

  /** The first field of `s` split on `sep`: the part before the first `sep`,
      or all of `s` when it has none. */
  function FirstField(s: string, sep: char): (r: string)
    ensures r <= s
    ensures sep !in r
    ensures |r| < |s| ==> s[|r|] == sep
  {
    if s == [] then []
    else if s[0] == sep then []
    else [s[0]] + FirstField(s[1..], sep)
  }

  /** Whether the token belongs to a tenant of the multi-tenant service. */
  predicate IsJaas(kid: string) {
    StartsWith(kid, JaasPrefix)
  }

  /** The tenant a `kid` names: present exactly for prefixed `kid`s, and then
      the longest prefix of `kid` without a `/`, which always begins with the
      tenant prefix itself. */
  function Tenant(kid: string): (t: Option<string>)
    ensures t.Some? <==> IsJaas(kid)
    ensures t.Some? ==> t.value <= kid && '/' !in t.value
    ensures t.Some? && |t.value| < |kid| ==> kid[|t.value|] == '/'
    ensures t.Some? && '/' !in kid ==> t.value == kid
    ensures t.Some? ==> StartsWith(t.value, JaasPrefix)
  {
    if IsJaas(kid) then
      var first := FirstField(kid, '/');
      assert |JaasPrefix| <= |first|;
      assert first[..|JaasPrefix|] == kid[..|JaasPrefix|];
      Some(first)
    else
      None
  }

  /** The folder of the key store that holds the key for `kid`. */
  function Folder(cfg: Config, kid: string): string {
    match Tenant(kid)
    case Some(tenant) => "vpaas/" + cfg.pubKeysFolder + "/" + tenant
    case None => cfg.pubKeysFolder
  }

  /** The name of the key file for `kid`: the digest of the whole `kid` with
      a `.pem` suffix; it has a fixed length and holds no `/`. */
  function FileName(lib: Library, kid: string): (name: string)
    ensures |name| == 68
    ensures '/' !in name
  {
    var digest := lib.sha256Hex(kid);
    assert forall i | 0 <= i < |digest| :: digest[i] != '/' by {
      forall i | 0 <= i < |digest| ensures digest[i] != '/' {
        assert IsLowerHexDigit(digest[i]);
      }
    }
    digest + ".pem"
  }

  /** The path, relative to the key-store base URL, of the key for `kid`. */
  function KeyPath(cfg: Config, lib: Library, kid: string): string {
    Folder(cfg, kid) + "/" + FileName(lib, kid)
  }

  /** The address a key path is fetched from. */
  function KeyUrl(cfg: Config, path: string): string {
    cfg.pubKeysUrl + "/" + path
  }

  /** The public key stored at `path`: the body of the response whatever its
      status; only a raising GET is a failure. */
  function GetPublicKey(cfg: Config, lib: Library, path: string): (r: Result<string>)
    ensures r.Failure? <==> lib.httpGet(KeyUrl(cfg, path)).Failure?
    ensures r.Success? ==> exists status :: lib.httpGet(KeyUrl(cfg, path)) == Success(Response(status, r.value))
  {
    match lib.httpGet(KeyUrl(cfg, path))
    case Failure(e) => Failure(e)
    case Success(response) => Success(response.text)
  }

  /** The authorization decision for an incoming token.

      The foreign calls always form a prefix of: read the header, fetch the
      key, verify with it. How far the chain got determines the reason:
      one call for a header or `kid` failure, two for a failed fetch, three
      when the token was verified (authorized, expired or bad signature). */
  function Authorize(cfg: Config, lib: Library, token: string): (r: Run)
    ensures 1 <= |r.calls| <= 3 && r.calls[0] == ReadHeader(token)
    ensures |r.calls| >= 2 ==> r.calls[1].Get?
    ensures |r.calls| == 3 ==>
              r.calls[2].Verify? && r.calls[2].token == token && r.calls[2].algorithms == AllowedAlgorithms
    ensures |r.calls| == 1 <==> r.outcome.Rejected? && r.outcome.reason in {BadHeader, NoKid}
    ensures |r.calls| == 2 <==> r.outcome.Rejected? && r.outcome.reason == FetchFailed
    ensures r.outcome.Authorized? ==>
              |r.calls| == 3 && lib.decode(token, r.calls[2].key, AllowedAlgorithms) == Decoded
  {
    match lib.unverifiedHeader(token)
    case None =>
      Run(Rejected(BadHeader, HeaderDetail), [ReadHeader(token)])
    case Some(header) =>
      if "kid" !in header then
        Run(Rejected(NoKid, NoKidDetail), [ReadHeader(token)])
      else
        var kid := header["kid"];
        var fileName := FileName(lib, kid);
        var path := KeyPath(cfg, lib, kid);
        var fetched := [ReadHeader(token), Get(KeyUrl(cfg, path))];
        match GetPublicKey(cfg, lib, path)
        case Failure(_) =>
          Run(Rejected(FetchFailed, FetchDetailPrefix + fileName), fetched)
        case Success(publicKey) =>
          var calls := fetched + [Verify(token, publicKey, AllowedAlgorithms)];
          match lib.decode(token, publicKey, AllowedAlgorithms)
          case Decoded => Run(Authorized, calls)
          case ExpiredSignature => Run(Rejected(Expired, ExpiredDetail), calls)
          case InvalidToken => Run(Rejected(BadSignature, VerifyDetailPrefix + fileName), calls)
  }
}
