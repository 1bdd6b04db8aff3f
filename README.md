# Glowstone login: the encryption-key response handler

This project models the login step of the Glowstone server that handles the client's
encryption-key response (`EncryptionKeyResponseHandler`). The handler does the following:

- It decrypts the RSA-encrypted shared secret and verify token with the server's private key.
- It checks the token against the one the server issued and switches the connection to stream encryption.
- It derives the session hash from the session id, the shared secret and the server's public key.
- It asks the Mojang session server `hasJoined` whether the player joined with that hash.
- When the HTTP reply arrives, its callback turns the reply into an authenticated player profile, or kicks the player.

Files:

- `session_hash.dfy` (module `SessionHash`): the text form of the hash, `new BigInteger(digest).toString(16)`.
  It reads the bytes as big-endian two's complement and writes lowercase hex with no leading zeros and `-` when negative.
  A parser reads the text back, and the proofs show that the text is canonical, round-trips to the integer, and is injective on digests.
- `auth_url.dfy` (module `AuthUrl`): the request URL as the handler concatenates it.
  A query splitter and decoder show that the URL carries exactly `username`, `serverId` and the optional `ip`, in that order.
- `session.dfy` (module `GlowSession`): the connection state the handler reads and changes.
  It holds the issued verify token, the session id, the username and the socket address (host and port). It changes the disconnect flag and reason, the encryption flag and key, the auth request URL and the player profile.
- `handler.dfy` (module `EncryptionKeyResponseHandler`): `Handle` and the `ClientAuthCallback` with `Done` and `Error`.
  It also holds the loop over the `properties` array, and `Login`, which runs the handler and then the callback on one session.
  `Login` states the security invariant: a player profile exists only if every check passed.
- `wrappers.dfy` (module `Wrappers`): `Option`, which stands for a Java `null` or a caught exception.

The collaborators are inputs: the RSA cipher (`Option` of a partial decryption function), SHA-512, `String.getBytes`,
`URLEncoder.encode`, `UuidUtils.fromFlatString` and the pre-login event. Each exception the handler catches from them is `None`.
The HTTP request is the URL recorded on the session, plus the callback object that `Handle` returns.
`Done` and `Error` are later calls on that callback.

## Model

| member | source | states |
|---|---|---|
| `SessionHash.TwosComplement` | src/main/java/net/glowstone/net/handler/login/EncryptionKeyResponseHandler.java:105 | The value of `new BigInteger(digest)` is the unsigned big-endian value, or that value minus 256 to the byte length. It is negative exactly when the first byte has its top bit set, and it lies in the two's-complement range of the byte length. |
| `SessionHash.Hex` | src/main/java/net/glowstone/net/handler/login/EncryptionKeyResponseHandler.java:105 | Base-16 text of a magnitude is non-empty, all lowercase hex digits, and starts with `0` only for zero (no leading zeros). |
| `SessionHash.SignedHex` | src/main/java/net/glowstone/net/handler/login/EncryptionKeyResponseHandler.java:105 | `BigInteger.toString(16)` of an integer is canonical (optional `-`, lowercase hex digits, no leading zero, no `-0`) and starts with `-` exactly when the integer is negative. |
| `SessionHash.HashText` | src/main/java/net/glowstone/net/handler/login/EncryptionKeyResponseHandler.java:104-105 | The hash text is canonical (optional `-`, lowercase hex digits, no leading zero, no `-0`), it starts with `-` iff the digest's top bit is set, and it contains only hex digits and `-`. |
| `SessionHash.HexRoundTrip` | src/main/java/net/glowstone/net/handler/login/EncryptionKeyResponseHandler.java:105 | Reading the hex digits back gives the original magnitude. |
| `SessionHash.SignedHexRoundTrip` | src/main/java/net/glowstone/net/handler/login/EncryptionKeyResponseHandler.java:105 | Parsing the text of any integer gives that integer back, so the text loses nothing. |
| `SessionHash.HashTextRoundTrip` | src/main/java/net/glowstone/net/handler/login/EncryptionKeyResponseHandler.java:105 | Parsing the hash text back gives the signed big-endian value of the digest. |
| `SessionHash.HashTextInjective` | src/main/java/net/glowstone/net/handler/login/EncryptionKeyResponseHandler.java:99-105 | Two different digests give different hash texts, so changing one byte of the digest changes the text. |
| `AuthUrl.RequestUrl` | src/main/java/net/glowstone/net/handler/login/EncryptionKeyResponseHandler.java:112-119 | The concatenated URL equals the base URL, `?`, and the `&`-joined parameters `username`, `serverId` and `ip` (only when an encoded address is given), in that order. |
| `AuthUrl.RequestUrlRoundTrip` | src/main/java/net/glowstone/net/handler/login/EncryptionKeyResponseHandler.java:112-119 | When name, hash and encoded address contain no `&`, the URL starts with the base URL and `?`, and its query decodes to exactly the intended parameters, in order. |
| `EncryptionKeyResponseHandler.SharedSecretOf` | src/main/java/net/glowstone/net/handler/login/EncryptionKeyResponseHandler.java:66-74 | A shared secret exists exactly when the RSA cipher exists, decryption of the shared-secret field succeeds and the decrypted key is non-empty; it is then the decrypted bytes. An empty key (which makes `SecretKeySpec` throw) is a failure, and `Handle` kicks with SHARED_SECRET for it. |
| `EncryptionKeyResponseHandler.DigestInput` | src/main/java/net/glowstone/net/handler/login/EncryptionKeyResponseHandler.java:99-102 | The digest input is the session-id bytes, then the shared secret, then the public key: each occupies its own consecutive slice, in that order, and nothing else is fed. |
| `EncryptionKeyResponseHandler.IpParameter` | src/main/java/net/glowstone/net/handler/login/EncryptionKeyResponseHandler.java:114-126 | An `ip` value is present only when proxies are refused, and it is then the encoded address. When proxies are refused and encoding succeeds it is present. A failed encoding gives no `ip`, and `Handle` still issues the request. |
| `EncryptionKeyResponseHandler.RecordedRequestDecodes` | src/main/java/net/glowstone/net/handler/login/EncryptionKeyResponseHandler.java:104-126 | The URL `Handle` records starts with the base URL and `?` and decodes to exactly the player's name, the hash of the digest input and the optional `ip`. The hash never contains `&`, so only the name and the encoded address must be free of it. |
| `EncryptionKeyResponseHandler.TokensEqual` | src/main/java/net/glowstone/net/handler/login/EncryptionKeyResponseHandler.java:88 | The token comparison holds iff both tokens have the same length and the same bytes. A token that differs only in length is rejected. |
| `EncryptionKeyResponseHandler.Handle` | src/main/java/net/glowstone/net/handler/login/EncryptionKeyResponseHandler.java:51-129 | Each failure (no RSA cipher, shared secret not decryptable or empty, verify token not decryptable or different) kicks with that step's reason and changes nothing else. Otherwise encryption is enabled once, with the decrypted secret. Then either there is no SHA-512 (HASH_FAILED kick) or the request URL is recorded. That URL is built from the hash of session-id bytes, then secret, then public key, and the `ip` parameter is present only when proxies are refused and encoding succeeds. The callback exists iff the request was issued, and the player is never touched. |
| `EncryptionKeyResponseHandler.ParseProperties` | src/main/java/net/glowstone/net/handler/login/EncryptionKeyResponseHandler.java:160-170 | The properties list has the length and order of the JSON array. Each entry carries its object's `name` and `value`, and a signature exactly when the object has one. |
| `EncryptionKeyResponseHandler.ClientAuthCallback.Done` | src/main/java/net/glowstone/net/handler/login/EncryptionKeyResponseHandler.java:137-182 | An unparsed body kicks with AUTH_FAILED. A bad id kicks with BAD_UUID carrying the raw id. A non-allowed pre-login result kicks with the event's message. Otherwise the player becomes the profile with the reply's name (absent when the reply has none), the parsed UUID, the copied properties and `authenticated`. The player changes only in that last case. |
| `EncryptionKeyResponseHandler.ClientAuthCallback.Error` | src/main/java/net/glowstone/net/handler/login/EncryptionKeyResponseHandler.java:184-188 | A transport error kicks with AUTH_INTERNAL and changes nothing else. |
| `EncryptionKeyResponseHandler.Login` | src/main/java/net/glowstone/net/handler/login/EncryptionKeyResponseHandler.java:88-181 | On a fresh session, a player is set iff the token check passed, SHA-512 existed, the server replied, the id parsed and the pre-login event allowed. Such a player is authenticated on an encrypted connection that has a recorded auth request. Encryption is enabled at most once, and exactly when the token check passed. |

## Left out

- RSA decryption, SHA-512, `String.getBytes` (platform charset) and `URLEncoder.encode` are foreign library code. They are function inputs, and `None` stands for each exception the handler catches.
- Timing: the constant-time behaviour of `MessageDigest.isEqual` is not modelled, only its result.
- The JSON parser is an input: the body arrives already parsed, or as `None` when it does not parse.
  A reply without a `name` field is modelled. Its name is `None` (Java `null`), and it reaches the pre-login event and the player profile unchanged, as in the code.
  The model leaves out the inputs on which the code's lines 147-170 throw an uncaught exception. Those are a mistyped `name`, `id` or property field (`ClassCastException`), a missing or mistyped `properties` array, and a missing `id` (whatever `UuidUtils.fromFlatString(null)` does).
  `ProfileProperty` is not part of this model, so a property object without `name` or `value`, which its constructor may reject, is also left out. The model's `PropertyObject` always has both.
- `UuidUtils.fromFlatString` is not part of this model. It is an input partial function from the id text to a UUID.
- `EventFactory.onPlayerPreLogin` is an input decision on (name, socket address, uuid): allowed, or denied with a kick message. The kinds of non-allowed result are folded into one. The socket address is the host text and the port. The `ip` parameter is computed from the host text alone, and the model does not distinguish the `InetAddress` object from its `getHostAddress()` text.
- The HTTP client, the Netty event loop and the main-thread scheduler are not modelled. Issuing the request records the URL on the session, `Done`/`Error` are later method calls, and `runTask` is a direct `SetPlayer`. Concurrency and thread hops are not modelled.
- `GlowSession` is not part of this model. Its `disconnect`, `enableEncryption` and `setPlayer` are modelled as the field updates the handler relies on. The `overrideKick` flag of `disconnect(…, true)` is dropped.
- Logging and localised messages are not modelled. Kick messages are the `KickReason` tags.
- The code has no check that the session is still open when the callback runs, and the model follows the code. A callback on a closed session still kicks or sets the player.
- `AuthUrl.RequestUrlRoundTrip`: the code does not encode the username. The round trip is stated only for names without `&`, because a name containing `&` would add query parameters. It is also stated against the model's own query reader, which splits on `&` and the first `=` and nothing else. A real HTTP query reader also ends the query at `#` and percent-decodes `%xx` and `+`, so for an unencoded name containing `#`, `%` or `+` the server reads something other than the name. `EncryptionKeyResponseHandler.RecordedRequestDecodes` carries the same limit.
