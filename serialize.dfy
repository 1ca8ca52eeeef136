/**
 * The last stage of the DHT outbound pipeline, `SerializeMiddleware::serialize`
 * in comms/dht/src/outbound/serialize.rs. It decides whether a message is
 * being forwarded, signs the body when this node is the origin, wraps header
 * and body in an envelope, encodes it and addresses the bytes to the
 * destination peer.
 *
 * Signing, the binary form of a signature and the envelope encoding are
 * foreign code: they are the function-valued fields of `Signer` and
 * `EnvelopeCodec`, each of which may fail.
 */
module DhtSerialize {
  import opened Wrappers

  type Bytes = seq<bv8>
  type PublicKey = Bytes
  type SecretKey = Bytes
  type NodeId = Bytes

  /** `MessageTag` is a `u64`. */
  newtype MessageTag = x: int | 0 <= x < 0x1_0000_0000_0000_0000

  /** The comms-level `MessageFlags` and the DHT-level `DhtMessageFlags`, as their bit sets. */
  datatype MessageFlags = MessageFlags(bits: bv32)
  datatype DhtMessageFlags = DhtMessageFlags(bits: bv32)

  datatype DhtOrigin = DhtOrigin(publicKey: PublicKey, signature: Bytes)

  datatype NodeDestination = Unknown | PublicKeyDestination(key: PublicKey) | NodeIdDestination(id: NodeId)

  datatype DhtMessageType =
    | Unspecified | Join | Discovery | DiscoveryResponse | RejectMsg | SafRequestMessages | SafStoredMessages

  datatype Network = MainNet | TestNet | LocalTest

  datatype DhtHeader = DhtHeader(
    version: nat,
    destination: NodeDestination,
    origin: Option<DhtOrigin>,
    messageType: DhtMessageType,
    network: Network,
    flags: DhtMessageFlags)

  datatype NodeIdentity = NodeIdentity(nodeId: NodeId, publicKey: PublicKey, secretKey: SecretKey)

  datatype Peer = Peer(publicKey: PublicKey, nodeId: NodeId)

  /** The fields of `DhtOutboundMessage` that `serialize` reads. */
  datatype DhtOutboundMessage = DhtOutboundMessage(
    tag: MessageTag,
    destinationPeer: Peer,
    dhtHeader: DhtHeader,
    commsFlags: MessageFlags,
    body: Bytes)

  datatype DhtEnvelope = DhtEnvelope(header: DhtHeader, body: Bytes)

  /** What is handed to the next service. */
  datatype OutboundMessage = OutboundMessage(tag: MessageTag, peerNodeId: NodeId, flags: MessageFlags, body: Bytes)

  /** The three `PipelineError::from_debug` conversions of `serialize`. */
  datatype PipelineError = SigningFailed | SignatureEncodingFailed | EnvelopeEncodingFailed

  datatype Result<+T> = Ok(value: T) | Err(error: PipelineError)

  /** A Schnorr signature: a public nonce and a scalar, both opaque here. */
  datatype SchnorrSignature = SchnorrSignature(publicNonce: Bytes, scalar: Bytes)

  /** `signature::sign` (with its random nonce fixed by the caller) and `to_binary`. */
  datatype Signer = Signer(
    sign: (SecretKey, Bytes) -> Option<SchnorrSignature>,
    toBinary: SchnorrSignature -> Option<Bytes>)

  /** `to_encoded_bytes` and the matching `decode` of the envelope. */
  datatype EnvelopeCodec = EnvelopeCodec(
    encode: DhtEnvelope -> Option<Bytes>,
    decode: Bytes -> Option<DhtEnvelope>)

  /** Decoding what was encoded gives the envelope back. */
  ghost predicate RoundTrips(codec: EnvelopeCodec) {
    forall env :: codec.encode(env).Some? ==> codec.decode(codec.encode(env).value) == Some(env)
  }

  /** The message is forwarded when its header names an origin other than this node. */
  predicate IsForwarded(header: DhtHeader, localKey: PublicKey) {
    match header.origin
    case None => false
    case Some(o) => o.publicKey != localKey
  }

  /**
   * The header that goes into the envelope. A forwarded header keeps its
   * signature. Otherwise an origin, when present, gets the signature of the
   * body under the local secret key.
   */
  function OutboundHeader(identity: NodeIdentity, message: DhtOutboundMessage, signer: Signer): (r: Result<DhtHeader>)
    ensures r.Err? <==>
              && !IsForwarded(message.dhtHeader, identity.publicKey)
              && message.dhtHeader.origin.Some?
              && (signer.sign(identity.secretKey, message.body).None? ||
                  signer.toBinary(signer.sign(identity.secretKey, message.body).value).None?)
    ensures r.Err? ==>
              r.error == if signer.sign(identity.secretKey, message.body).None? then SigningFailed
                         else SignatureEncodingFailed
    ensures r.Ok? ==> r.value.(origin := message.dhtHeader.origin) == message.dhtHeader
    ensures r.Ok? ==> r.value.origin.Some? == message.dhtHeader.origin.Some?
    ensures r.Ok? && r.value.origin.Some? ==> r.value.origin.value.publicKey == message.dhtHeader.origin.value.publicKey
  {
    var header := message.dhtHeader;
    if IsForwarded(header, identity.publicKey) then Ok(header)
    else
      match header.origin
      case None => Ok(header)
      case Some(origin) =>
        match signer.sign(identity.secretKey, message.body)
        case None => Err(SigningFailed)
        case Some(signature) =>
          match signer.toBinary(signature)
          case None => Err(SignatureEncodingFailed)
          case Some(bytes) => Ok(header.(origin := Some(origin.(signature := bytes))))
  }

  /**
   * `serialize`: the outbound message handed to the next service, or the
   * error returned instead of calling it.
   */
  function Serialize(identity: NodeIdentity, message: DhtOutboundMessage, signer: Signer, codec: EnvelopeCodec): (r: Result<OutboundMessage>)
    ensures r.Ok? ==>
              && r.value.tag == message.tag
              && r.value.peerNodeId == message.destinationPeer.nodeId
              && r.value.flags == message.commsFlags
    ensures OutboundHeader(identity, message, signer).Err? ==> r == Err(OutboundHeader(identity, message, signer).error)
    ensures OutboundHeader(identity, message, signer).Ok? ==>
              var env := DhtEnvelope(OutboundHeader(identity, message, signer).value, message.body);
              && (r.Err? <==> codec.encode(env).None?)
              && (r.Err? ==> r.error == EnvelopeEncodingFailed)
              && (r.Ok? ==> codec.encode(env) == Some(r.value.body))
  {
    match OutboundHeader(identity, message, signer)
    case Err(e) => Err(e)
    case Ok(header) =>
      match codec.encode(DhtEnvelope(header, message.body))
      case None => Err(EnvelopeEncodingFailed)
      case Some(bytes) => Ok(OutboundMessage(message.tag, message.destinationPeer.nodeId, message.commsFlags, bytes))
  }

  // ---------------------------------------------------------------------------
  // Properties

  /**
   * The signer is consulted exactly when this node is the named origin: with
   * a signer that fails on this body, the header step fails iff the header's
   * origin carries the local public key.
   */
  lemma SignerUsedIffOwnOrigin(identity: NodeIdentity, message: DhtOutboundMessage, failing: Signer)
    requires failing.sign(identity.secretKey, message.body).None?
    ensures OutboundHeader(identity, message, failing).Err? <==>
            exists o :: message.dhtHeader.origin == Some(o) && o.publicKey == identity.publicKey
  {
    if OutboundHeader(identity, message, failing).Err? {
      var o := message.dhtHeader.origin.value;
      assert message.dhtHeader.origin == Some(o) && o.publicKey == identity.publicKey;
    }
  }

  /** A forwarded header, signature included, goes out untouched whatever the signer does. */
  lemma ForwardedHeaderUnchanged(identity: NodeIdentity, message: DhtOutboundMessage, signer: Signer, other: Signer)
    requires IsForwarded(message.dhtHeader, identity.publicKey)
    ensures OutboundHeader(identity, message, signer) == Ok(message.dhtHeader)
    ensures OutboundHeader(identity, message, signer) == OutboundHeader(identity, message, other)
  {
  }

  /** A header without an origin is never signed. */
  lemma NoOriginUnchanged(identity: NodeIdentity, message: DhtOutboundMessage, signer: Signer)
    requires message.dhtHeader.origin.None?
    ensures OutboundHeader(identity, message, signer) == Ok(message.dhtHeader)
  {
  }

  /**
   * A message this node originates carries, as its origin signature, the
   * binary form of the signature of the body alone under the local secret
   * key; the origin public key is the local one and nothing else changes.
   */
  lemma OwnMessageSigned(identity: NodeIdentity, message: DhtOutboundMessage, signer: Signer)
    requires message.dhtHeader.origin.Some?
    requires !IsForwarded(message.dhtHeader, identity.publicKey)
    requires OutboundHeader(identity, message, signer).Ok?
    ensures var h := OutboundHeader(identity, message, signer).value;
            var sig := signer.sign(identity.secretKey, message.body);
            && sig.Some? && signer.toBinary(sig.value).Some?
            && h == message.dhtHeader.(origin := Some(DhtOrigin(identity.publicKey, signer.toBinary(sig.value).value)))
  {
  }

  /**
   * The signature covers the body only: two messages with the same body and
   * the same local origin get the same signature, whatever else their
   * headers say.
   */
  lemma SignatureIgnoresHeader(identity: NodeIdentity, m1: DhtOutboundMessage, m2: DhtOutboundMessage, signer: Signer)
    requires m1.body == m2.body
    requires m1.dhtHeader.origin.Some? && m2.dhtHeader.origin.Some?
    requires !IsForwarded(m1.dhtHeader, identity.publicKey) && !IsForwarded(m2.dhtHeader, identity.publicKey)
    requires OutboundHeader(identity, m1, signer).Ok?
    ensures OutboundHeader(identity, m2, signer).Ok?
    ensures OutboundHeader(identity, m1, signer).value.origin == OutboundHeader(identity, m2, signer).value.origin
  {
  }

  /** Decoding the emitted bytes gives back the envelope: the sent header and the original body. */
  lemma SerializeRoundTrip(identity: NodeIdentity, message: DhtOutboundMessage, signer: Signer, codec: EnvelopeCodec)
    requires RoundTrips(codec)
    requires Serialize(identity, message, signer, codec).Ok?
    ensures var out := Serialize(identity, message, signer, codec).value;
            && codec.decode(out.body).Some?
            && codec.decode(out.body).value.body == message.body
            && codec.decode(out.body).value.header == OutboundHeader(identity, message, signer).value
  {
    var header := OutboundHeader(identity, message, signer).value;
    var env := DhtEnvelope(header, message.body);
    assert codec.encode(env).Some?;
  }

  /** Any failure of signing, of the signature's binary form or of the encoding is an error, and nothing is sent. */
  lemma SerializeFailures(identity: NodeIdentity, message: DhtOutboundMessage, signer: Signer, codec: EnvelopeCodec)
    requires !IsForwarded(message.dhtHeader, identity.publicKey) && message.dhtHeader.origin.Some?
    ensures signer.sign(identity.secretKey, message.body).None? ==>
              Serialize(identity, message, signer, codec) == Err(SigningFailed)
    ensures signer.sign(identity.secretKey, message.body).Some? &&
            signer.toBinary(signer.sign(identity.secretKey, message.body).value).None? ==>
              Serialize(identity, message, signer, codec) == Err(SignatureEncodingFailed)
  {
  }

  /** Every signature `identity` makes, in its binary form, verifies under its public key. */
  ghost predicate SoundScheme(signer: Signer, verify: (PublicKey, Bytes, Bytes) -> bool, identity: NodeIdentity) {
    forall m: Bytes :: signer.sign(identity.secretKey, m).Some? && signer.toBinary(signer.sign(identity.secretKey, m).value).Some? ==>
      verify(identity.publicKey, m, signer.toBinary(signer.sign(identity.secretKey, m).value).value)
  }

  /**
   * With such a scheme, the envelope a receiver decodes from an own message
   * carries an origin signature that verifies against the origin public key
   * over the body.
   */
  lemma OwnMessageVerifies(identity: NodeIdentity, message: DhtOutboundMessage, signer: Signer, codec: EnvelopeCodec,
                           verify: (PublicKey, Bytes, Bytes) -> bool)
    requires RoundTrips(codec) && SoundScheme(signer, verify, identity)
    requires message.dhtHeader.origin.Some? && !IsForwarded(message.dhtHeader, identity.publicKey)
    requires Serialize(identity, message, signer, codec).Ok?
    ensures var env := codec.decode(Serialize(identity, message, signer, codec).value.body);
            && env.Some? && env.value.header.origin.Some?
            && verify(env.value.header.origin.value.publicKey, env.value.body, env.value.header.origin.value.signature)
  {
    SerializeRoundTrip(identity, message, signer, codec);
    OwnMessageSigned(identity, message, signer);
  }
}
