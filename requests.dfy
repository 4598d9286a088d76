/**
  Request documents, reduced to the header and body fields the commands
  set.  XML serialisation, namespaces and protocol version fields are not
  modelled; `authenticated` records whether the document went through the
  authentication-signature step before being handed out.
*/
module EbicsRequests {
  import opened Wrappers
  import opened Protocol
  import StartEndDateOrderParams

  /** ebicsRequest (authenticated) or ebicsUnsecuredRequest. */
  datatype Envelope = EbicsRequest | EbicsUnsecuredRequest

  /** The StandardOrderParams an order carries, if any. */
  datatype OrderParams =
    | NoOrderParams
    | EmptyOrderParams
    | StartEndDate(startDate: StartEndDateOrderParams.DateTime, endDate: StartEndDateOrderParams.DateTime)

  datatype OrderDetails = OrderDetails(orderType: string, orderAttribute: string, orderParams: OrderParams)

  datatype StaticHeader = StaticHeader(
    hostId: string,
    transactionId: Option<string>,
    nonce: Option<string>,
    timestamp: Option<string>,
    partnerId: Option<string>,
    userId: Option<string>,
    securityMedium: Option<string>,
    numSegments: Option<int>,
    orderDetails: Option<OrderDetails>,
    bankPubKeyDigests: bool)

  datatype MutableHeader = MutableHeader(
    phase: Option<TransactionPhase>,
    segmentNumber: Option<int>,
    lastSegment: Option<bool>)

  /** The bank's encryption key digest (always present here) and the RSA-wrapped transaction key. */
  datatype DataEncryptionInfo = DataEncryptionInfo(transactionKey: string)

  datatype DataTransfer = DataTransfer(
    encryptionInfo: Option<DataEncryptionInfo>,
    signatureData: Option<string>,
    orderData: Option<string>)

  datatype Body = Body(dataTransfer: Option<DataTransfer>, receiptCode: Option<string>)

  datatype Request = Request(
    envelope: Envelope,
    authenticated: bool,
    header: StaticHeader,
    mutable: MutableHeader,
    body: Body)

  /** A static header that names only the host and the transaction. */
  function TransactionHeader(hostId: string, transactionId: Option<string>): StaticHeader {
    StaticHeader(hostId, transactionId, None, None, None, None, None, None, None, false)
  }

  /** An authenticated Transfer-phase request. */
  function TransferRequest(hostId: string, transactionId: Option<string>, segmentNumber: int,
                           lastSegment: bool, orderData: Option<string>): Request
  {
    Request(EbicsRequest, true, TransactionHeader(hostId, transactionId),
      MutableHeader(Some(Transfer), Some(segmentNumber), Some(lastSegment)),
      Body(if orderData.Some? then Some(DataTransfer(None, None, orderData)) else None, None))
  }

  /** The Receipt-phase request that acknowledges a download with receipt code "0". */
  function ReceiptRequest(hostId: string, transactionId: Option<string>): (r: Request)
    ensures IsReceipt(r, hostId, transactionId)
  {
    Request(EbicsRequest, true, TransactionHeader(hostId, transactionId),
      MutableHeader(Some(Receipt), None, None),
      Body(None, Some("0")))
  }

  /** A Transfer request for segment `n` of transaction `transactionId`. */
  predicate IsTransfer(r: Request, hostId: string, transactionId: Option<string>, n: int, last: bool) {
    && r.envelope == EbicsRequest && r.authenticated
    && r.header.hostId == hostId && r.header.transactionId == transactionId
    && r.header.nonce.None? && r.header.orderDetails.None?
    && r.mutable == MutableHeader(Some(Transfer), Some(n), Some(last))
    && r.body.receiptCode.None?
  }

  /** A successful-receipt request for transaction `transactionId`. */
  predicate IsReceipt(r: Request, hostId: string, transactionId: Option<string>) {
    && r.envelope == EbicsRequest && r.authenticated
    && r.header.hostId == hostId && r.header.transactionId == transactionId
    && r.header.nonce.None? && r.header.orderDetails.None?
    && r.mutable.phase == Some(Receipt)
    && r.body.receiptCode == Some("0") && r.body.dataTransfer.None?
  }

  /**
    An authenticated Initialisation request for the given order: it is
    fresh (nonce and timestamp), names the order but no transaction yet.
  */
  predicate IsInitialisation(r: Request, user: User, stamp: Stamp, orderType: string, orderAttribute: string) {
    && r.envelope == EbicsRequest && r.authenticated
    && r.header.hostId == user.hostId
    && r.header.partnerId == Some(user.partnerId) && r.header.userId == Some(user.userId)
    && r.header.nonce == Some(stamp.nonce) && r.header.timestamp == Some(stamp.timestamp)
    && r.header.transactionId.None?
    && r.header.orderDetails.Some?
    && r.header.orderDetails.value.orderType == orderType
    && r.header.orderDetails.value.orderAttribute == orderAttribute
    && r.header.bankPubKeyDigests
    && r.mutable == MutableHeader(Some(Initialisation), None, None)
  }

  /** How many request/response exchanges a command's request set makes. */
  function RoundTrips(init: Option<Request>, transfers: Option<seq<Request>>, receipt: Option<Request>): nat {
    (if init.Some? then 1 else 0) + (if transfers.Some? then |transfers.value| else 0) + (if receipt.Some? then 1 else 0)
  }
}
