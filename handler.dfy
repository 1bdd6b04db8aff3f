/**
 * The login step that answers the client's encryption-key response: decrypt the
 * shared secret and the verify token, check the token, switch the connection
 * to encryption, derive the session hash, ask the session server, and, when
 * the reply arrives, turn it into an authenticated player profile or a kick.
 *
 * RSA, SHA-512, `String.getBytes`, `URLEncoder`, the UUID parser and the
 * pre-login event are collaborators whose code is not part of this model; each
 * is an input here, and each exception the handler catches is a `None`.
 */
module EncryptionKeyResponseHandler {
  import opened Wrappers
  import opened SessionHash
  import opened AuthUrl
  import opened GlowSession

  /** RSA decryption with the server's private key: fails on a bad ciphertext. */
  type Decryptor = seq<byte> -> Option<seq<byte>>

  /** The two RSA-encrypted fields the client sends. */
  datatype EncryptionKeyResponseMessage = EncryptionKeyResponseMessage(
    sharedSecret: seq<byte>,
    verifyToken: seq<byte>)

  /** What the handler takes from the server and the Java platform. */
  datatype Server = Server(
    // the RSA cipher, or None when it cannot be created
    rsaCipher: Option<Decryptor>,
    // SHA-512 over its whole input, or None when the algorithm is missing
    sha512: Option<seq<byte> -> Digest>,
    // String.getBytes() in the platform charset
    stringBytes: string -> seq<byte>,
    // the encoded public key of the server's key pair
    publicKey: seq<byte>,
    preventProxy: bool,
    // URLEncoder.encode(_, "UTF-8"), or None when it throws
    urlEncode: string -> Option<string>)

  /**
   * `MessageDigest.isEqual` on the decrypted and the stored verify token:
   * equal lengths and equal bytes at every position.
   */
  function TokensEqual(a: seq<byte>, b: seq<byte>): (equal: bool)
    ensures equal <==> a == b
  {
    |a| == |b| && forall i | 0 <= i < |a| :: a[i] == b[i]
  }

  /**
   * The shared secret as decrypted, when the cipher exists, decryption succeeds
   * and the key is not empty (an empty key makes `SecretKeySpec` throw).
   */
  function SharedSecretOf(server: Server, message: EncryptionKeyResponseMessage): (secret: Option<seq<byte>>)
    ensures secret.Some? <==>
      && server.rsaCipher.Some?
      && server.rsaCipher.value(message.sharedSecret).Some?
      && |server.rsaCipher.value(message.sharedSecret).value| > 0
    ensures secret.Some? ==> Some(secret.value) == server.rsaCipher.value(message.sharedSecret)
  {
    match server.rsaCipher
    case None => None
    case Some(rsa) =>
      match rsa(message.sharedSecret)
      case Some(key) => if |key| > 0 then Some(key) else None
      case None => None
  }

  /** Every check before encryption passed: cipher, both decryptions, token equality. */
  predicate TokenAccepted(server: Server, message: EncryptionKeyResponseMessage, expected: seq<byte>)
  {
    && server.rsaCipher.Some?
    && SharedSecretOf(server, message).Some?
    && match server.rsaCipher.value(message.verifyToken)
       case Some(token) => TokensEqual(token, expected)
       case None => false
  }

  /** The digest is fed the session id, then the shared secret, then the public key. */
  function DigestInput(server: Server, sessionId: string, sharedSecret: seq<byte>): (input: seq<byte>)
    ensures var id := server.stringBytes(sessionId);
            && |input| == |id| + |sharedSecret| + |server.publicKey|
            && input[..|id|] == id
            && input[|id|..|id| + |sharedSecret|] == sharedSecret
            && input[|id| + |sharedSecret|..] == server.publicKey
  {
    server.stringBytes(sessionId) + sharedSecret + server.publicKey
  }

  /** The `ip` query value: the encoded address, when proxies are refused and encoding works. */
  function IpParameter(server: Server, address: string): (ip: Option<string>)
    ensures ip.Some? ==> server.preventProxy && server.urlEncode(address) == ip
    ensures server.preventProxy && server.urlEncode(address).Some? ==> ip.Some?
  {
    if server.preventProxy then server.urlEncode(address) else None
  }

  /**
   * Handles the encryption-key response on `session`; returns the callback
   * handed to the HTTP client, or null when the session was kicked first.
   */
  method Handle(session: Session, message: EncryptionKeyResponseMessage, server: Server)
    returns (callback: ClientAuthCallback?)
    modifies session
    // the RSA cipher cannot be created
    ensures server.rsaCipher.None? ==>
      && callback == null
      && session.State() == old(session.State()).(disconnected := true, disconnectReason := Some(RsaInitFailed))
    // the shared secret does not decrypt to a usable key
    ensures server.rsaCipher.Some? && SharedSecretOf(server, message).None? ==>
      && callback == null
      && session.State() == old(session.State()).(disconnected := true, disconnectReason := Some(SharedSecretRejected))
    // the verify token does not decrypt, or differs from the one issued
    ensures SharedSecretOf(server, message).Some? && !TokenAccepted(server, message, session.verifyToken) ==>
      && callback == null
      && session.State() == old(session.State()).(disconnected := true, disconnectReason := Some(VerifyTokenRejected))
    // encryption is on, but there is no SHA-512
    ensures TokenAccepted(server, message, session.verifyToken) && server.sha512.None? ==>
      && callback == null
      && session.State() == old(session.State()).(
           encryptionEnabled := true,
           encryptionKey := SharedSecretOf(server, message).value,
           encryptionEnables := old(session.encryptionEnables) + 1,
           disconnected := true,
           disconnectReason := Some(HashFailed))
    // encryption is on and the session server is asked
    ensures TokenAccepted(server, message, session.verifyToken) && server.sha512.Some? ==>
      var secret := SharedSecretOf(server, message).value;
      var hash := HashText(server.sha512.value(DigestInput(server, session.sessionId, secret)));
      && callback != null && fresh(callback) && callback.session == session
      && session.State() == old(session.State()).(
           encryptionEnabled := true,
           encryptionKey := secret,
           encryptionEnables := old(session.encryptionEnables) + 1,
           authRequestUrl := Some(RequestUrl(session.verifyUsername, hash, IpParameter(server, session.address.host))))
    // encryption is installed once, and only after the token check
    ensures session.encryptionEnables
         == old(session.encryptionEnables) + if TokenAccepted(server, message, session.verifyToken) then 1 else 0
    ensures session.encryptionEnabled == (old(session.encryptionEnabled) || TokenAccepted(server, message, session.verifyToken))
    ensures callback != null <==> TokenAccepted(server, message, session.verifyToken) && server.sha512.Some?
    ensures callback != null ==> session.authRequestUrl.Some?
    ensures session.player == old(session.player)
  {
    if server.rsaCipher.None? {
      session.Disconnect(RsaInitFailed);
      return null;
    }
    var rsa := server.rsaCipher.value;

    var decryptedSecret := rsa(message.sharedSecret);
    if decryptedSecret.None? || |decryptedSecret.value| == 0 {
      session.Disconnect(SharedSecretRejected);
      return null;
    }
    var sharedSecret := decryptedSecret.value;

    var verifyToken := rsa(message.verifyToken);
    if verifyToken.None? {
      session.Disconnect(VerifyTokenRejected);
      return null;
    }

    if !TokensEqual(verifyToken.value, session.verifyToken) {
      session.Disconnect(VerifyTokenRejected);
      return null;
    }

    session.EnableEncryption(sharedSecret);

    if server.sha512.None? {
      session.Disconnect(HashFailed);
      return null;
    }
    var digest := server.sha512.value(DigestInput(server, session.sessionId, sharedSecret));
    var hash := HashText(digest);

    var ip: Option<string> := None;
    if server.preventProxy {
      ip := server.urlEncode(session.address.host);
    }
    var url := RequestUrl(session.verifyUsername, hash, ip);

    session.authRequestUrl := Some(url);
    callback := new ClientAuthCallback(session);
  }

  /**
   * The request `Handle` records decodes back to the player's name, the hash of
   * the digest input and the `ip` value. The hash never needs escaping, so only
   * the name and the encoded address must be free of `&`.
   */
  lemma RecordedRequestDecodes(server: Server, username: string, sessionId: string, secret: seq<byte>, address: string)
    requires server.sha512.Some?
    requires '&' !in username
    requires IpParameter(server, address).Some? ==> '&' !in IpParameter(server, address).value
    ensures var hash := HashText(server.sha512.value(DigestInput(server, sessionId, secret)));
            var url := RequestUrl(username, hash, IpParameter(server, address));
            && |url| > |BaseUrl|
            && url[..|BaseUrl| + 1] == BaseUrl + "?"
            && DecodeParams(SplitFields(url[|BaseUrl| + 1..], '&')) == AuthParams(username, hash, IpParameter(server, address))
  {
    var hash := HashText(server.sha512.value(DigestInput(server, sessionId, secret)));
    assert '&' !in hash by {
      forall i | 0 <= i < |hash|
        ensures hash[i] != '&'
      {
        assert hash[i] == '-' || IsHexDigit(hash[i]);
      }
    }
    RequestUrlRoundTrip(username, hash, IpParameter(server, address));
  }

  /** The result of the pre-login event. */
  datatype PreLoginResult = Allowed | Denied(kickMessage: string)

  /** The pre-login event, as a decision on (name, socket address, uuid). */
  type PreLoginHook = (Option<string>, SocketAddress, Uuid) -> PreLoginResult

  /** A JSON object of the `properties` array; `name` and `value` are present. */
  type PropertyObject = obj: map<string, string> | "name" in obj && "value" in obj
    witness map["name" := "", "value" := ""]

  /**
   * The session server's reply body, once parsed as JSON; `name` is None when
   * the reply has no `name` field.
   */
  datatype AuthResponse = AuthResponse(name: Option<string>, id: string, properties: seq<PropertyObject>)

  /** `JSONObject.get`: the value, or None (Java `null`) when the key is absent. */
  function Lookup(obj: map<string, string>, key: string): (r: Option<string>)
  {
    if key in obj then Some(obj[key]) else None
  }

  /**
   * `properties` lists one profile property per JSON object, in the same
   * order, with that object's name, value and optional signature.
   */
  predicate CarriesProperties(objects: seq<PropertyObject>, properties: seq<ProfileProperty>)
  {
    && |properties| == |objects|
    && forall i | 0 <= i < |objects| ::
         && properties[i].name == objects[i]["name"]
         && properties[i].value == objects[i]["value"]
         && (properties[i].signature.Some? <==> "signature" in objects[i])
         && (properties[i].signature.Some? ==> properties[i].signature.value == objects[i]["signature"])
  }

  /** The loop that turns the JSON `properties` array into profile properties. */
  method ParseProperties(propsArray: seq<PropertyObject>) returns (properties: seq<ProfileProperty>)
    ensures CarriesProperties(propsArray, properties)
  {
    properties := [];
    for i := 0 to |propsArray|
      invariant CarriesProperties(propsArray[..i], properties)
    {
      var propJson := propsArray[i];
      var property := ProfileProperty(propJson["name"], propJson["value"], Lookup(propJson, "signature"));
      properties := properties + [property];
    }
    assert propsArray[..|propsArray|] == propsArray;
  }

  /** The reply parsed, its id is a UUID and the pre-login event allowed the login. */
  predicate Admitted(response: Option<AuthResponse>, fromFlatString: string -> Option<Uuid>,
                     preLogin: PreLoginHook, address: SocketAddress)
  {
    && response.Some?
    && fromFlatString(response.value.id).Some?
    && preLogin(response.value.name, address, fromFlatString(response.value.id).value).Allowed?
  }

  /** The continuation the HTTP client calls once, with the body or with an error. */
  class ClientAuthCallback {
    const session: Session

    constructor (session: Session)
      ensures this.session == session
    {
      this.session := session;
    }

    /**
     * The session server answered; `response` is its body parsed as JSON
     * (None when it does not parse).
     */
    method Done(response: Option<AuthResponse>, fromFlatString: string -> Option<Uuid>, preLogin: PreLoginHook)
      modifies session
      ensures response.None? ==>
        session.State() == old(session.State()).(disconnected := true, disconnectReason := Some(AuthFailed))
      ensures response.Some? && fromFlatString(response.value.id).None? ==>
        session.State() == old(session.State()).(disconnected := true, disconnectReason := Some(BadUuid(response.value.id)))
      ensures response.Some? && fromFlatString(response.value.id).Some? ==>
        var decision := preLogin(response.value.name, session.address, fromFlatString(response.value.id).value);
        decision.Denied? ==>
          session.State() == old(session.State()).(disconnected := true, disconnectReason := Some(PreLoginDenied(decision.kickMessage)))
      ensures Admitted(response, fromFlatString, preLogin, session.address) ==>
        && session.State() == old(session.State()).(player := session.player)
        && session.player.Some?
        && session.player.value.name == response.value.name
        && session.player.value.uuid == fromFlatString(response.value.id).value
        && CarriesProperties(response.value.properties, session.player.value.properties)
        && session.player.value.authenticated
      ensures !Admitted(response, fromFlatString, preLogin, session.address) ==> session.player == old(session.player)
      // the handshake state is left as it was
      ensures session.encryptionEnabled == old(session.encryptionEnabled)
      ensures session.encryptionKey == old(session.encryptionKey)
      ensures session.encryptionEnables == old(session.encryptionEnables)
      ensures session.authRequestUrl == old(session.authRequestUrl)
    {
      if response.None? {
        session.Disconnect(AuthFailed);
        return;
      }
      var json := response.value;
      var name := json.name;
      var id := json.id;

      var parsedUuid := fromFlatString(id);
      if parsedUuid.None? {
        session.Disconnect(BadUuid(id));
        return;
      }
      var uuid := parsedUuid.value;

      var properties := ParseProperties(json.properties);

      var event := preLogin(name, session.address, uuid);
      if event.Denied? {
        session.Disconnect(PreLoginDenied(event.kickMessage));
        return;
      }

      session.SetPlayer(PlayerProfile(name, uuid, properties, true));
    }

    /** The request failed in transport. */
    method Error()
      modifies session
      ensures session.State() == old(session.State()).(disconnected := true, disconnectReason := Some(AuthInternal))
      ensures session.player == old(session.player)
    {
      session.Disconnect(AuthInternal);
    }
  }

  /** What the HTTP client eventually delivers: a body (parsed or not), or an error. */
  datatype HttpOutcome = Body(response: Option<AuthResponse>) | TransportError

  /**
   * One whole login on a fresh session: the handler runs, and if it issued the
   * request, the callback later runs with the HTTP outcome.
   */
  method Login(session: Session, message: EncryptionKeyResponseMessage, server: Server,
               outcome: HttpOutcome, fromFlatString: string -> Option<Uuid>, preLogin: PreLoginHook)
    requires session.State() == SessionState(false, None, false, [], 0, None, None)
    modifies session
    ensures session.player.Some? <==>
      && TokenAccepted(server, message, session.verifyToken)
      && server.sha512.Some?
      && outcome.Body?
      && Admitted(outcome.response, fromFlatString, preLogin, session.address)
    ensures session.player.Some? ==>
      && session.encryptionEnabled
      && session.encryptionKey == SharedSecretOf(server, message).value
      && session.authRequestUrl.Some?
      && session.player.value.authenticated
    ensures session.encryptionEnables <= 1
    ensures session.encryptionEnabled <==> TokenAccepted(server, message, session.verifyToken)
  {
    var callback := Handle(session, message, server);
    if callback != null {
      match outcome {
        case Body(response) => callback.Done(response, fromFlatString, preLogin);
        case TransportError => callback.Error();
      }
    }
  }
}
