# Bearer-token authorization of skynet, modelled in Dafny

skynet authenticates each inbound request with a signed JWT. `authorize`
(skynet/auth/jwt.py) decides whether the token is accepted, in four stages:

1. it reads the token header without checking the signature;
2. it requires a `kid` entry in that header;
3. it derives the path of the public key from the `kid`:
   - a `kid` starting with `vpaas-magic-cookie` belongs to a tenant, and its
     key lives under `vpaas/<base folder>/<tenant>`, where the tenant is the
     `kid` up to its first `/`;
   - any other `kid` is looked up in the base folder;
   - the file name is the SHA-256 hex digest of the whole `kid` plus `.pem`;
4. it fetches that key from the key store and verifies the token with it,
   accepting only the RS256 and HS512 algorithms.

The first stage that fails ends the decision with a rejection.

The model is pure, like the source: `Jwt.Authorize` is a function over the
configuration (key-store URL and base folder), the token and a `Library`
value. The `Library` holds the foreign code as oracles:
- reading the unverified header, which returns `None` when it raises;
- the SHA-256 hex digest, typed as 64 lower-case hex characters;
- the HTTP GET, which returns `Failure` when it raises, or a status and a body;
- JWT verification, which ends as `Decoded`, `ExpiredSignature` or
  `InvalidToken`.

The decision comes back as a `Run`: the `Outcome` (`Authorized`, or
`Rejected(reason, detail)`) and the list of foreign calls made, in order.
That list is how the model states which key was fetched, that nothing was
fetched, and which key the token was verified with.

Files:
- `wrappers.dfy`: the `Option` and `Result` datatypes.
- `jwt.dfy`: module `Jwt`, which holds the data model, the key-path
  derivation, `GetPublicKey` and `Authorize`.
- `jwt_properties.dfy`: module `JwtProperties`, which holds the lemmas about
  the decision.

The code differs from what one might expect in two places, and the model
follows the code:
- A prefixed `kid` without any `/` has the whole `kid` as its tenant, not
  the empty string. This follows from Python's `str.split` (jwt.py:30).
- A key-store answer with a non-200 status is not a fetch failure. Its body
  is taken as the key, and the token is then verified with it. Only a GET
  that raises is a fetch failure (jwt.py:14-17, 36-39). Since HS512 is
  allowed and uses the key text as the HMAC secret, the body of an error
  page served for a `kid` without a key file acts as that secret: a token
  signed with it is authorized.

## Model

| member | source | states |
|---|---|---|
| Jwt.FirstField | skynet/auth/jwt.py:30 | `s.split(sep)[0]`: the result is a prefix of `s` without `sep`, and is followed by `sep` in `s` when it is shorter than `s` |
| Jwt.Tenant | skynet/auth/jwt.py:29-30 | there is a tenant exactly when `kid` starts with `vpaas-magic-cookie`; it is the longest `/`-free prefix of `kid`, the whole `kid` when `kid` has no `/`, and it always starts with the tenant prefix |
| Jwt.FileName | skynet/auth/jwt.py:33-34 | the key file name is 68 characters long and holds no `/` |
| Jwt.GetPublicKey | skynet/auth/jwt.py:9-17 | the GET goes to `<url>/<path>`; it fails exactly when the GET raises; otherwise the key is the body of the response, whatever its status |
| Jwt.Authorize | skynet/auth/jwt.py:19-47 | the foreign calls are a non-empty prefix of "read header, GET key, verify with allow-list"; one call means a header or `kid` rejection, two a fetch failure; `Authorized` only after verification returned `Decoded` |
| JwtProperties.HeaderFailureRejects | skynet/auth/jwt.py:20-23 | an undecodable header is rejected with "Failed to decode JWT header", and no key is fetched |
| JwtProperties.MissingKidRejects | skynet/auth/jwt.py:25-26 | a header without `kid` is rejected with "Invalid token. No kid header.", with no fetch, whatever the key store or verification would say |
| JwtProperties.PresentKidIsFetched | skynet/auth/jwt.py:25-37 | a header holding `kid`, the empty string included, always leads to a GET of that `kid`'s key path |
| JwtProperties.JaasKeyUrl | skynet/auth/jwt.py:29-37 | a prefixed `kid` is fetched from `<url>/vpaas/<base>/<tenant>/<sha256(kid)>.pem` |
| JwtProperties.PlainKeyUrl | skynet/auth/jwt.py:29-37 | any other `kid` is fetched from `<url>/<base>/<sha256(kid)>.pem`, with no tenant segment |
| JwtProperties.TenantBeforeSlash | skynet/auth/jwt.py:29-30 | the tenant of a prefixed `kid` is exactly the text before its first `/` |
| JwtProperties.TenantExampleWithSlash | skynet/auth/jwt.py:29-31 | `vpaas-magic-cookie-XYZ/abc123` has tenant `vpaas-magic-cookie-XYZ` and folder `vpaas/<base>/vpaas-magic-cookie-XYZ` |
| JwtProperties.TenantExampleWithoutSlash | skynet/auth/jwt.py:29-31 | `vpaas-magic-cookie-XYZ`, which has no `/`, is a tenant as a whole |
| JwtProperties.PlainFolderExample | skynet/auth/jwt.py:29-31 | `plain-key-1` has no tenant and uses the base folder |
| JwtProperties.KeyPathDecomposes | skynet/auth/jwt.py:31-37 | two key paths are equal exactly when their folders and their file names are equal |
| JwtProperties.TenantIsolation | skynet/auth/jwt.py:29-37 | `kid`s of two different tenants never share a key path |
| JwtProperties.TenantNeverGlobal | skynet/auth/jwt.py:29-37 | a tenant `kid` and an unprefixed `kid` never share a key path |
| JwtProperties.KeyPathDeterministic | skynet/auth/jwt.py:28-37 | the key path depends only on the `kid`, its digest and the base folder |
| JwtProperties.FetchFailureRejects | skynet/auth/jwt.py:36-39 | a GET that raises is rejected, with no verification; the detail is the fixed prefix "Failed to retrieve public key. " followed by the file name and nothing else; it holds no `/`, so neither the URL nor a tenant folder can occur in it |
| JwtProperties.AnyStatusIsVerified | skynet/auth/jwt.py:14-42 | whatever the HTTP status, the body is verified as the key; the outcome is never a fetch failure |
| JwtProperties.ErrorPageBodyIsKey | skynet/auth/jwt.py:14-43 | a 404 answer's body is used as the key, so a token that verifies with that body (an HS512 token keyed by the error page) is authorized |
| JwtProperties.VerifiesWithFetchedKey | skynet/auth/jwt.py:36-43 | verification happens only for a decoded header with `kid`, with the body just fetched from that `kid`'s key URL, and with the allow-list `["RS256", "HS512"]` |
| JwtProperties.AuthorizedIff | skynet/auth/jwt.py:19-43 | the token is authorized if and only if the header decodes, holds `kid`, the GET of its key succeeds, and the token verifies with that body under the allow-list |
| JwtProperties.VerificationFailures | skynet/auth/jwt.py:41-47 | an expired signature gives "Expired token."; any other verification failure gives a bad-signature rejection naming the file; the two details differ |
| JwtProperties.ReasonIdentifiesStage | skynet/auth/jwt.py:19-47 | each rejection reason holds if and only if its own stage failed |
| JwtProperties.AlgorithmConfusionRejected | skynet/auth/jwt.py:42-47 | if the JWT library refuses algorithms outside the list it is given, a token claiming another algorithm is never authorized, and once its key is fetched it is rejected as a bad signature |

## Left out

- Header decoding, RSA/HMAC verification and the `exp` comparison are the JWT library's. They are oracles (`unverifiedHeader`, `decode`), and only their possible results are modelled.
- SHA-256 is an oracle that returns 64 lower-case hex characters. Its digest of a concrete `kid` (such as `abc`) is not computed.
- The HTTP request of `get_public_key` is an oracle. This leaves out blocking, the missing timeout, network errors beyond "it raised", and the `print` of the URL.
- HTTP 401 responses and FastAPI are left out. A rejection is a datatype value carrying the detail text, and the status is always 401 in the source.
- Header values are strings in the model. A non-string `kid`, on which `startswith` would raise outside any handler, is not modelled.
- JwtProperties.PresentKidIsFetched: holds only for `kid`s made of Unicode scalar values. A `str` kid holding an unpaired surrogate (which a JSON header can carry as a `\ud800` escape) passes the checks at jwt.py:25-30. Its UTF-8 encoding at jwt.py:33 then raises outside any handler, so `authorize` ends with an unhandled exception rather than a rejection. Dafny strings cannot hold such a character, and `sha256Hex` is total, so the model has neither this `kid` nor this crash.
- The configuration is passed in as a `Config` value. It is not read from the environment.
- JwtProperties.AlgorithmConfusionRejected: the allow-list is enforced inside the JWT library. This property is therefore proved under a stated assumption about that library (`EnforcesAllowList`), not unconditionally.
- skynet/modules/ttt/summaries/processor.py is not part of this model. It is glue around an external summarization library.
- skynet/main.py is not part of this model. It is HTTP route wiring.
