/**
  Vocabulary shared by the EBICS order commands: transaction phases and
  directions, order descriptors, the parsed bank response record, the
  error kinds, and the configuration values the requests carry.
*/
module Protocol {

  type Bytes = seq<bv8>

  datatype TransactionPhase = Initialisation | Transfer | Receipt

  datatype TransactionType = Upload | Download

  /** What every command declares about itself: order type, order attribute, direction. */
  datatype Descriptor = Descriptor(orderType: string, orderAttribute: string, transactionType: TransactionType)

  /**
    The fields of a bank response that the commands consult.  The shared
    response parser (the base class's Deserialize) produces this record; it
    is not part of this model, so the record is an input of every
    command's Deserialize.
  */
  datatype DeserializeResponse = DeserializeResponse(
    hasError: bool,
    isRecoverySync: bool,
    phase: TransactionPhase,
    transactionId: string,
    segmentNumber: int,
    numSegments: int,
    lastSegment: bool)

  /** A bank error or a recovery-sync demand: the command interprets nothing further. */
  predicate ShortCircuits(dr: DeserializeResponse) {
    dr.hasError || dr.isRecoverySync
  }

  /** Why a request could not be built. */
  datatype Reason =
    | InvalidAmount     // an amount of a credit transfer did not parse
    | NoUploadSegments  // the upload segments were never produced (a null list in the source)

  /** The two exception kinds the commands raise, each naming the order type. */
  datatype EbicsError =
    | DeserializationError(orderType: string)
    | CreateRequestError(orderType: string, reason: Reason)

  /** A user's signature key pair; only passed around, never inspected. */
  datatype KeyPair = KeyPair(publicKey: Bytes, privateKey: Bytes)

  /** The user configuration the headers carry. */
  datatype User = User(hostId: string, partnerId: string, userId: string, signKeys: KeyPair)

  /** The values of the randomness source and the clock used in one request header. */
  datatype Stamp = Stamp(nonce: string, timestamp: string)
}
