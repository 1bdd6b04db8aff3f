/**
 * The parts of a connection in the login phase that the encryption-key
 * handler reads and changes, and the values it exchanges with collaborators.
 */
module GlowSession {
  import opened Wrappers
  import opened SessionHash

  /** Why the connection was closed: one tag per kick message the handler sends. */
  datatype KickReason =
    | RsaInitFailed
    | SharedSecretRejected
    | VerifyTokenRejected
    | HashFailed
    | AuthFailed
    | BadUuid(id: string)
    | AuthInternal
    | PreLoginDenied(kickMessage: string)

  datatype Uuid = Uuid(mostSignificantBits: int, leastSignificantBits: int)

  /** A signed profile attribute; the signature is carried, never checked. */
  datatype ProfileProperty = ProfileProperty(name: string, value: string, signature: Option<string>)

  /** The client's socket address: host text and port. */
  datatype SocketAddress = SocketAddress(host: string, port: nat)

  /** A player profile; the name is None when the reply had none (Java `null`). */
  datatype PlayerProfile = PlayerProfile(
    name: Option<string>,
    uuid: Uuid,
    properties: seq<ProfileProperty>,
    authenticated: bool)

  /** A snapshot of everything the handler may change on a session. */
  datatype SessionState = SessionState(
    disconnected: bool,
    disconnectReason: Option<KickReason>,
    encryptionEnabled: bool,
    encryptionKey: seq<byte>,
    encryptionEnables: nat,
    authRequestUrl: Option<string>,
    player: Option<PlayerProfile>)

  class Session {
    /** The token sent to the client with the encryption request. */
    const verifyToken: seq<byte>
    const sessionId: string
    /** The name the client gave at login start. */
    const verifyUsername: string
    /** The client's socket address. */
    const address: SocketAddress

    var disconnected: bool
    var disconnectReason: Option<KickReason>
    var encryptionEnabled: bool
    /** The shared secret the stream cipher was installed with. */
    var encryptionKey: seq<byte>
    /** How many times stream encryption has been installed on this connection. */
    ghost var encryptionEnables: nat
    /** The session-server URL the HTTP client was asked to fetch. */
    var authRequestUrl: Option<string>
    var player: Option<PlayerProfile>

    ghost function State(): SessionState
      reads this
    {
      SessionState(disconnected, disconnectReason, encryptionEnabled, encryptionKey,
                   encryptionEnables, authRequestUrl, player)
    }

    constructor (verifyToken: seq<byte>, sessionId: string, verifyUsername: string, address: SocketAddress)
      ensures this.verifyToken == verifyToken && this.sessionId == sessionId
      ensures this.verifyUsername == verifyUsername && this.address == address
      ensures State() == SessionState(false, None, false, [], 0, None, None)
    {
      this.verifyToken := verifyToken;
      this.sessionId := sessionId;
      this.verifyUsername := verifyUsername;
      this.address := address;
      disconnected := false;
      disconnectReason := None;
      encryptionEnabled := false;
      encryptionKey := [];
      encryptionEnables := 0;
      authRequestUrl := None;
      player := None;
    }

    method Disconnect(reason: KickReason)
      modifies this
      ensures State() == old(State()).(disconnected := true, disconnectReason := Some(reason))
    {
      disconnected := true;
      disconnectReason := Some(reason);
    }

    method EnableEncryption(sharedSecret: seq<byte>)
      modifies this
      ensures State() == old(State()).(encryptionEnabled := true, encryptionKey := sharedSecret,
                                       encryptionEnables := old(encryptionEnables) + 1)
    {
      encryptionEnabled := true;
      encryptionKey := sharedSecret;
      encryptionEnables := encryptionEnables + 1;
    }

    method SetPlayer(profile: PlayerProfile)
      modifies this
      ensures State() == old(State()).(player := Some(profile))
    {
      player := Some(profile);
    }
  }
}
