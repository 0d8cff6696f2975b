/** What the authorization decision of module Jwt guarantees: the reason and
    detail of each rejection, which key is fetched for which `kid`, and that a
    token is verified only with the key just fetched. */
module JwtProperties {
  import opened Wrappers
  import opened Jwt

  /** A header that cannot be decoded is rejected before any key path is
      computed or fetched. */
  lemma HeaderFailureRejects(cfg: Config, lib: Library, token: string)
    requires lib.unverifiedHeader(token).None?
    ensures Authorize(cfg, lib, token).outcome == Rejected(BadHeader, HeaderDetail)
    ensures Authorize(cfg, lib, token).calls == [ReadHeader(token)]
  {
  }

  /** A header without `kid` is rejected without a fetch, and the decision
      does not depend on anything but the header: not on the key store, not
      on the payload or the signature. */
  lemma MissingKidRejects(cfg: Config, lib: Library, other: Library, token: string, header: map<string, string>)
    requires lib.unverifiedHeader(token) == Some(header) && "kid" !in header
    requires other.unverifiedHeader(token) == lib.unverifiedHeader(token)
    ensures Authorize(cfg, lib, token).outcome == Rejected(NoKid, NoKidDetail)
    ensures Authorize(cfg, lib, token).calls == [ReadHeader(token)]
    ensures Authorize(cfg, other, token) == Authorize(cfg, lib, token)
  {
  }

  /** A header holding `kid`, whatever its value (the empty string too),
      always gets as far as fetching the key path of that `kid`. */
  lemma PresentKidIsFetched(cfg: Config, lib: Library, token: string, header: map<string, string>)
    requires lib.unverifiedHeader(token) == Some(header) && "kid" in header
    ensures |Authorize(cfg, lib, token).calls| >= 2
    ensures Authorize(cfg, lib, token).calls[1] == Get(KeyUrl(cfg, KeyPath(cfg, lib, header["kid"])))
    ensures Authorize(cfg, lib, token).outcome != Rejected(NoKid, NoKidDetail)
  {
  }

  /** A tenant `kid` is looked up under `vpaas/<base>/<tenant>`, with the
      file named after the digest of the whole `kid`. */
  lemma JaasKeyUrl(cfg: Config, lib: Library, token: string, header: map<string, string>)
    requires lib.unverifiedHeader(token) == Some(header) && "kid" in header
    requires IsJaas(header["kid"])
    ensures Tenant(header["kid"]).Some?
    ensures |Authorize(cfg, lib, token).calls| >= 2
    ensures Authorize(cfg, lib, token).calls[1]
         == Get(cfg.pubKeysUrl + "/vpaas/" + cfg.pubKeysFolder + "/" + Tenant(header["kid"]).value
                + "/" + lib.sha256Hex(header["kid"]) + ".pem")
  {
    var kid := header["kid"];
    var t := Tenant(kid).value;
    PresentKidIsFetched(cfg, lib, token, header);
    assert Folder(cfg, kid) == "vpaas/" + cfg.pubKeysFolder + "/" + t;
    // the key URL, with the tenant folder spelled out
    assert KeyUrl(cfg, KeyPath(cfg, lib, kid))
        == cfg.pubKeysUrl + "/vpaas/" + cfg.pubKeysFolder + "/" + t + "/" + lib.sha256Hex(kid) + ".pem";
  }

  /** Any other `kid` is looked up directly under the base folder, with no
      tenant segment. */
  lemma PlainKeyUrl(cfg: Config, lib: Library, token: string, header: map<string, string>)
    requires lib.unverifiedHeader(token) == Some(header) && "kid" in header
    requires !IsJaas(header["kid"])
    ensures |Authorize(cfg, lib, token).calls| >= 2
    ensures Authorize(cfg, lib, token).calls[1]
         == Get(cfg.pubKeysUrl + "/" + cfg.pubKeysFolder + "/" + lib.sha256Hex(header["kid"]) + ".pem")
  {
  }

  /** The tenant of a prefixed `kid` is the text before its first `/`. */
  lemma TenantBeforeSlash(kid: string, k: nat)
    requires IsJaas(kid)
    requires k < |kid| && kid[k] == '/' && '/' !in kid[..k]
    ensures Tenant(kid) == Some(kid[..k])
  {
    var t := Tenant(kid).value;
    assert t == kid[..|t|];
  }

  /** Tenant routing of a sample prefixed `kid` with a `/`: the tenant is the
      part before the `/`. */
  lemma TenantExampleWithSlash(cfg: Config, kid: string)
    requires kid == "vpaas-magic-cookie-XYZ/abc123"
    ensures Tenant(kid) == Some("vpaas-magic-cookie-XYZ")
    ensures Folder(cfg, kid) == "vpaas/" + cfg.pubKeysFolder + "/" + "vpaas-magic-cookie-XYZ"
  {
    assert kid[..18] == JaasPrefix;
    assert kid[..22] == "vpaas-magic-cookie-XYZ";
    TenantBeforeSlash(kid, 22);
  }

  /** Tenant routing of a sample prefixed `kid` without a `/`: the whole `kid`
      is the tenant, not the empty string. */
  lemma TenantExampleWithoutSlash(cfg: Config, kid: string)
    requires kid == "vpaas-magic-cookie-XYZ"
    ensures Tenant(kid) == Some("vpaas-magic-cookie-XYZ")
    ensures Folder(cfg, kid) == "vpaas/" + cfg.pubKeysFolder + "/" + "vpaas-magic-cookie-XYZ"
  {
    assert kid[..18] == JaasPrefix;
    assert '/' !in kid;
  }

  /** Routing of a sample unprefixed `kid`: the base folder, no tenant. */
  lemma PlainFolderExample(cfg: Config)
    ensures Tenant("plain-key-1") == None
    ensures Folder(cfg, "plain-key-1") == cfg.pubKeysFolder
  {
  }

  /** A key path splits back into its folder and its file name: the file
      name has a fixed length, so two key paths are equal exactly when their
      folders and their file names are. */
  lemma {:induction false} KeyPathDecomposes(cfg: Config, lib: Library, kid1: string, kid2: string)
    ensures KeyPath(cfg, lib, kid1) == KeyPath(cfg, lib, kid2)
        <==> Folder(cfg, kid1) == Folder(cfg, kid2) && FileName(lib, kid1) == FileName(lib, kid2)
  {
    var f1, f2 := Folder(cfg, kid1), Folder(cfg, kid2);
    var n1, n2 := FileName(lib, kid1), FileName(lib, kid2);
    var p1, p2 := KeyPath(cfg, lib, kid1), KeyPath(cfg, lib, kid2);
    assert p1 == (f1 + "/") + n1 && p2 == (f2 + "/") + n2;
    assert p1[..|f1|] == f1 && p1[|f1| + 1..] == n1;
    assert p2[..|f2|] == f2 && p2[|f2| + 1..] == n2;
  }

  /** Keys of different tenants live at different paths: the key paths of
      two tenants' `kid`s are never the same string. */
  lemma TenantIsolation(cfg: Config, lib: Library, kid1: string, kid2: string)
    requires IsJaas(kid1) && IsJaas(kid2)
    requires Tenant(kid1) != Tenant(kid2)
    ensures KeyPath(cfg, lib, kid1) != KeyPath(cfg, lib, kid2)
  {
    var prefix := "vpaas/" + cfg.pubKeysFolder + "/";
    var t1, t2 := Tenant(kid1).value, Tenant(kid2).value;
    assert Folder(cfg, kid1)[|prefix|..] == t1;
    assert Folder(cfg, kid2)[|prefix|..] == t2;
    KeyPathDecomposes(cfg, lib, kid1, kid2);
  }

  /** A tenant's key never lives at the path of a key of the base folder:
      tenant `kid`s and other `kid`s never share a key path. */
  lemma TenantNeverGlobal(cfg: Config, lib: Library, tenantKid: string, plainKid: string)
    requires IsJaas(tenantKid) && !IsJaas(plainKid)
    ensures KeyPath(cfg, lib, tenantKid) != KeyPath(cfg, lib, plainKid)
  {
    assert |Folder(cfg, tenantKid)| > |Folder(cfg, plainKid)|;
    KeyPathDecomposes(cfg, lib, tenantKid, plainKid);
  }

  /** The key path depends on nothing but the `kid`, its digest and the base
      folder: not on the key-store URL, the token or the other oracles. */
  lemma KeyPathDeterministic(cfg1: Config, cfg2: Config, lib1: Library, lib2: Library, kid: string)
    requires cfg1.pubKeysFolder == cfg2.pubKeysFolder
    requires lib1.sha256Hex(kid) == lib2.sha256Hex(kid)
    ensures KeyPath(cfg1, lib1, kid) == KeyPath(cfg2, lib2, kid)
  {
  }

  /** A fetch that raises is rejected without a verification. The detail is
      the fixed prefix followed by the file name and nothing else; it holds
      no `/`, so neither the URL nor a tenant folder can occur in it. */
  lemma FetchFailureRejects(cfg: Config, lib: Library, token: string, header: map<string, string>)
    requires lib.unverifiedHeader(token) == Some(header) && "kid" in header
    requires lib.httpGet(KeyUrl(cfg, KeyPath(cfg, lib, header["kid"]))).Failure?
    ensures Authorize(cfg, lib, token).outcome
         == Rejected(FetchFailed, FetchDetailPrefix + lib.sha256Hex(header["kid"]) + ".pem")
    ensures |Authorize(cfg, lib, token).calls| == 2
    ensures '/' !in Authorize(cfg, lib, token).outcome.detail
  {
  }

  /** The HTTP status of the key store's answer is never checked: whatever
      the status, the body is taken as the key and the token is verified
      with it, so an error page is not a fetch failure. */
  lemma AnyStatusIsVerified(cfg: Config, lib: Library, token: string, header: map<string, string>,
                            status: int, body: string)
    requires lib.unverifiedHeader(token) == Some(header) && "kid" in header
    requires lib.httpGet(KeyUrl(cfg, KeyPath(cfg, lib, header["kid"]))) == Success(Response(status, body))
    ensures |Authorize(cfg, lib, token).calls| == 3
    ensures Authorize(cfg, lib, token).calls[2] == Verify(token, body, AllowedAlgorithms)
    ensures !Authorize(cfg, lib, token).outcome.Rejected? || Authorize(cfg, lib, token).outcome.reason != FetchFailed
  {
  }

  /** Because the status is not checked and HS512 takes the key text as the
      HMAC secret, the body of an error page served for a missing key file
      acts as the key: a token the library accepts with that body as the key
      is authorized. */
  lemma ErrorPageBodyIsKey(cfg: Config, lib: Library, token: string, header: map<string, string>, body: string)
    requires lib.unverifiedHeader(token) == Some(header) && "kid" in header
    requires lib.httpGet(KeyUrl(cfg, KeyPath(cfg, lib, header["kid"]))) == Success(Response(404, body))
    requires lib.decode(token, body, AllowedAlgorithms) == Decoded
    ensures Authorize(cfg, lib, token).outcome == Authorized
  {
  }

  /** A token is verified only with the key just fetched for its own `kid`,
      and only against the fixed algorithm allow-list. */
  lemma VerifiesWithFetchedKey(cfg: Config, lib: Library, token: string)
    ensures var r := Authorize(cfg, lib, token);
            |r.calls| == 3 ==>
              && lib.unverifiedHeader(token).Some?
              && "kid" in lib.unverifiedHeader(token).value
              && r.calls[1] == Get(KeyUrl(cfg, KeyPath(cfg, lib, lib.unverifiedHeader(token).value["kid"])))
              && lib.httpGet(r.calls[1].url).Success?
              && r.calls[2] == Verify(token, lib.httpGet(r.calls[1].url).value.text, AllowedAlgorithms)
  {
  }

  /** A token is authorized exactly when its header decodes, holds a `kid`,
      the key for that `kid` is fetched, and the token verifies with that key
      against the allow-list. */
  lemma AuthorizedIff(cfg: Config, lib: Library, token: string)
    ensures Authorize(cfg, lib, token).outcome == Authorized
        <==> && lib.unverifiedHeader(token).Some?
             && "kid" in lib.unverifiedHeader(token).value
             && var url := KeyUrl(cfg, KeyPath(cfg, lib, lib.unverifiedHeader(token).value["kid"]));
                && lib.httpGet(url).Success?
                && lib.decode(token, lib.httpGet(url).value.text, AllowedAlgorithms) == Decoded
  {
  }

  /** Once the key is fetched, an expired token and any other verification
      failure are told apart by reason and by detail; only the latter names
      the key file. */
  lemma VerificationFailures(cfg: Config, lib: Library, token: string, header: map<string, string>, response: Response)
    requires lib.unverifiedHeader(token) == Some(header) && "kid" in header
    requires lib.httpGet(KeyUrl(cfg, KeyPath(cfg, lib, header["kid"]))) == Success(response)
    ensures lib.decode(token, response.text, AllowedAlgorithms) == ExpiredSignature
            ==> Authorize(cfg, lib, token).outcome == Rejected(Expired, ExpiredDetail)
    ensures lib.decode(token, response.text, AllowedAlgorithms) == InvalidToken
            ==> Authorize(cfg, lib, token).outcome
                == Rejected(BadSignature, VerifyDetailPrefix + lib.sha256Hex(header["kid"]) + ".pem")
    ensures ExpiredDetail != VerifyDetailPrefix + FileName(lib, header["kid"])
  {
  }

  /** Each rejection reason names exactly one failing stage. */
  lemma ReasonIdentifiesStage(cfg: Config, lib: Library, token: string)
    ensures var r := Authorize(cfg, lib, token);
            && (r.outcome.Rejected? && r.outcome.reason == BadHeader <==> lib.unverifiedHeader(token).None?)
            && (r.outcome.Rejected? && r.outcome.reason == NoKid
                <==> lib.unverifiedHeader(token).Some? && "kid" !in lib.unverifiedHeader(token).value)
            && (r.outcome.Rejected? && r.outcome.reason == FetchFailed
                <==> |r.calls| == 2 && lib.httpGet(r.calls[1].url).Failure?)
            && (r.outcome.Rejected? && r.outcome.reason == Expired
                <==> |r.calls| == 3 && lib.decode(token, r.calls[2].key, AllowedAlgorithms) == ExpiredSignature)
            && (r.outcome.Rejected? && r.outcome.reason == BadSignature
                <==> |r.calls| == 3 && lib.decode(token, r.calls[2].key, AllowedAlgorithms) == InvalidToken)
  {
  }

  /** The JWT library refuses, as an invalid token, any token whose header
      names an algorithm outside the accepted list. */
  ghost predicate EnforcesAllowList(lib: Library) {
    forall t, key, algorithms ::
      lib.unverifiedHeader(t).Some? && "alg" in lib.unverifiedHeader(t).value
      && lib.unverifiedHeader(t).value["alg"] !in algorithms
      ==> lib.decode(t, key, algorithms) == InvalidToken
  }

  /** With a library that enforces the allow-list, a token claiming any other
      algorithm (`none`, HS256 with the public key as secret, ...) is never
      authorized, and once its key is fetched it is rejected as a bad
      signature, not as expired. */
  lemma AlgorithmConfusionRejected(cfg: Config, lib: Library, token: string, header: map<string, string>)
    requires EnforcesAllowList(lib)
    requires lib.unverifiedHeader(token) == Some(header)
    requires "alg" in header && header["alg"] !in AllowedAlgorithms
    ensures Authorize(cfg, lib, token).outcome != Authorized
    ensures |Authorize(cfg, lib, token).calls| == 3 ==> Authorize(cfg, lib, token).outcome.reason == BadSignature
  {
    var r := Authorize(cfg, lib, token);
    if |r.calls| == 3 {
      assert lib.decode(token, r.calls[2].key, AllowedAlgorithms) == InvalidToken;
    }
  }
}
