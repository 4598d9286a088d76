/**
  The initialisation of the user's signature key (IniCommand): a single
  unsecured request that sends the public signature key, compressed and
  base64-encoded but neither encrypted nor authenticated.
*/
module IniCommand {
  import opened Wrappers
  import opened Protocol
  import opened EbicsRequests
  import opened Services

  const OrderType: string := "INI"
  const OrderAttribute: string := "DZNNN"

  /** Order type "INI", attribute "DZNNN", an upload. */
  function Descriptor(): (d: Protocol.Descriptor)
    ensures d == Protocol.Descriptor("INI", "DZNNN", Upload)
  {
    Protocol.Descriptor(OrderType, OrderAttribute, Upload)
  }

  /** There is no Initialisation request (null). */
  function InitRequest(): (r: Option<Request>)
    ensures r.None?
  {
    None
  }

  /** There is no Receipt request (null). */
  function ReceiptRequest(): (r: Option<Request>)
    ensures r.None?
  {
    None
  }

  /** The order data: the SignaturePubKeyOrderData document, compressed, then base64-encoded. */
  function KeyOrderData(c: Crypto, w: Writers, user: User): string {
    Pack(c, c.utf8Encode(w.signaturePubKey(SignaturePubKeyOrderData(user.partnerId, user.userId, user.signKeys))))
  }

  /**
    CreateRequests: exactly one ebicsUnsecuredRequest, never authenticated,
    with no nonce, timestamp or transaction id, no phase, and the key
    document as plain order data without encryption info or signature.
  */
  function CreateRequests(c: Crypto, w: Writers, user: User, securityMedium: string): (r: seq<Request>)
    ensures |r| == 1
    ensures r[0].envelope == EbicsUnsecuredRequest && !r[0].authenticated
    ensures r[0].header.nonce.None? && r[0].header.timestamp.None? && r[0].header.transactionId.None?
    ensures r[0].header.hostId == user.hostId
    ensures r[0].header.partnerId == Some(user.partnerId) && r[0].header.userId == Some(user.userId)
    ensures r[0].header.securityMedium == Some(securityMedium) && !r[0].header.bankPubKeyDigests
    ensures r[0].header.orderDetails == Some(OrderDetails(OrderType, OrderAttribute, NoOrderParams))
    ensures r[0].mutable == MutableHeader(None, None, None)
    ensures r[0].body == Body(Some(DataTransfer(None, None, Some(KeyOrderData(c, w, user)))), None)
  {
    var req := Request(EbicsUnsecuredRequest, false,
      StaticHeader(user.hostId, None, None, None, Some(user.partnerId), Some(user.userId),
        Some(securityMedium), None, Some(OrderDetails(OrderType, OrderAttribute, NoOrderParams)), false),
      MutableHeader(None, None, None),
      Body(Some(DataTransfer(None, None, Some(KeyOrderData(c, w, user)))), None));
    [req]
  }

  /**
    Knowing only how to undo base64 and compression, the order data gives
    back the UTF-8 key document: no key of the bank or of the transaction
    is involved.
  */
  lemma OrderDataIsUnencrypted(c: Crypto, w: Writers, user: User, securityMedium: string,
                               fromBase64: string -> Bytes, decompress: Bytes -> Bytes)
    requires forall b :: fromBase64(c.toBase64(b)) == b
    requires forall b :: decompress(c.compress(b)) == b
    ensures var dt := CreateRequests(c, w, user, securityMedium)[0].body.dataTransfer.value;
      decompress(fromBase64(dt.orderData.value)) ==
        c.utf8Encode(w.signaturePubKey(SignaturePubKeyOrderData(user.partnerId, user.userId, user.signKeys)))
  {
  }

  /** The whole transaction is one exchange. */
  lemma OneRoundTrip(c: Crypto, w: Writers, user: User, securityMedium: string)
    ensures RoundTrips(InitRequest(), Some(CreateRequests(c, w, user, securityMedium)), ReceiptRequest()) == 1
  {
  }
}
