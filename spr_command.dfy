/**
  The suspension of the user's access (SprCommand): a single
  Initialisation request that carries an encrypted user signature over a
  one-space placeholder and declares zero segments.  No Transfer and no
  Receipt requests follow.
*/
module SprCommand {
  import opened Wrappers
  import opened Protocol
  import opened EbicsRequests
  import opened Services

  const OrderType: string := "SPR"
  const OrderAttribute: string := "UZHNN"

  /** The ASCII encoding of the single character " ". */
  const Placeholder: Bytes := [0x20]

  /** Order type "SPR", attribute "UZHNN", an upload. */
  function Descriptor(): (d: Protocol.Descriptor)
    ensures d == Protocol.Descriptor("SPR", "UZHNN", Upload)
  {
    Protocol.Descriptor(OrderType, OrderAttribute, Upload)
  }

  /** There are no Transfer requests (null). */
  function Requests(): (r: Option<seq<Request>>)
    ensures r.None?
  {
    None
  }

  /** There is no Receipt request (null). */
  function ReceiptRequest(): (r: Option<Request>)
    ensures r.None?
  {
    None
  }

  /** The user's signature over the placeholder. */
  function PlaceholderSignature(c: Crypto, user: User): UserSignatureData {
    UserSignatureData(user.partnerId, user.userId, c.signData(Placeholder, user.signKeys), user.signKeys)
  }

  /**
    The Initialisation request for the transaction key `key`, fixed when the
    command is constructed: the signature document is compressed, encrypted
    under `key` and base64-encoded into SignatureData, and the same `key` is
    RSA-wrapped into TransactionKey.
  */
  function InitRequest(c: Crypto, w: Writers, user: User, stamp: Stamp, key: Bytes): (r: Request)
    ensures IsInitialisation(r, user, stamp, OrderType, OrderAttribute)
    ensures r.header.numSegments == Some(0) && r.header.securityMedium.None?
    ensures r.header.orderDetails.value.orderParams == EmptyOrderParams
    ensures r.body.receiptCode.None? && r.body.dataTransfer.Some?
    ensures r.body.dataTransfer.value.orderData.None?
  {
    var signatureData := Protect(c, c.utf8Encode(w.userSignature(PlaceholderSignature(c, user))), key);
    Request(EbicsRequest, true,
      StaticHeader(user.hostId, None, Some(stamp.nonce), Some(stamp.timestamp), Some(user.partnerId),
        Some(user.userId), None, Some(0), Some(OrderDetails(OrderType, OrderAttribute, EmptyOrderParams)), true),
      MutableHeader(Some(Initialisation), None, None),
      Body(Some(DataTransfer(Some(DataEncryptionInfo(WrapKey(c, key))), Some(signatureData), None)), None))
  }

  /**
    The signature value is computed over the single byte 0x20, and the one
    transaction key both encrypts the signature data (compress, then AES,
    then base64) and is the key wrapped into TransactionKey; neither
    depends on the nonce or the timestamp.
  */
  lemma PayloadUsesOneKey(c: Crypto, w: Writers, user: User, stamp: Stamp, stamp': Stamp, key: Bytes)
    ensures var dt := InitRequest(c, w, user, stamp, key).body.dataTransfer.value;
      && PlaceholderSignature(c, user).signatureValue == c.signData([' ' as bv8], user.signKeys)
      && dt.signatureData ==
           Some(c.toBase64(c.encryptAes(c.compress(c.utf8Encode(w.userSignature(PlaceholderSignature(c, user)))), key)))
      && dt.encryptionInfo == Some(DataEncryptionInfo(c.toBase64(c.encryptRsa(key))))
      && InitRequest(c, w, user, stamp', key).body == InitRequest(c, w, user, stamp, key).body
  {
  }

  /** The whole transaction is one exchange: the Initialisation. */
  lemma OneRoundTrip(c: Crypto, w: Writers, user: User, stamp: Stamp, key: Bytes)
    ensures RoundTrips(Some(InitRequest(c, w, user, stamp, key)), Requests(), ReceiptRequest()) == 1
  {
  }
}
