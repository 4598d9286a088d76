/**
  The SEPA credit-transfer upload (CctCommand): the pain.001 document is
  canonicalised, signed, compressed, AES-encrypted under the command's
  transaction key, base64-encoded and segmented; the Initialisation
  request declares the segment count and carries the encrypted signature
  and the wrapped key; one Transfer request per segment follows.
*/
module CctCommand {
  import opened Wrappers
  import opened Protocol
  import opened EbicsRequests
  import opened Services
  import opened CctDocument

  const OrderAttribute: string := "OZHNN"

  /** The serialisers and helpers the upload calls besides the cryptography. */
  datatype UploadServices = UploadServices(
    crypto: Crypto,
    writers: Writers,
    documentXml: Document -> string,     // the document as unformatted XML text
    segment: string -> seq<string>,      // splits the payload into transfer segments
    parseAmount: string -> Option<real>) // currency-style decimal parsing, None on failure

  /** The text that is both signed and uploaded: the canonical document XML. */
  function CanonicalDocument(sv: UploadServices, doc: Document): string {
    FormatCctXml(sv.documentXml(doc))
  }

  /** CreateUserSigData: the user's signature over the UTF-8 bytes of the canonical document. */
  function OrderSignature(sv: UploadServices, user: User, doc: Document): (r: UserSignatureData)
    ensures r.partnerId == user.partnerId && r.userId == user.userId && r.signKeys == user.signKeys
    ensures r.signatureValue == sv.crypto.signData(sv.crypto.utf8Encode(Canonical(sv.documentXml(doc))), user.signKeys)
  {
    FormatCctXmlIsCanonical(sv.documentXml(doc));
    UserSignatureData(user.partnerId, user.userId,
      sv.crypto.signData(sv.crypto.utf8Encode(CanonicalDocument(sv, doc)), user.signKeys), user.signKeys)
  }

  /** The order payload: base64(AES(Compress(UTF-8(canonical document)))). */
  function OrderPayload(sv: UploadServices, doc: Document, key: Bytes): string {
    Protect(sv.crypto, sv.crypto.utf8Encode(CanonicalDocument(sv, doc)), key)
  }

  /** The Initialisation request together with the segments it announces. */
  datatype Initialised = Initialised(request: Request, segments: seq<string>)

  /** The Initialisation request and segments built from an already created document. */
  function InitialisationFor(sv: UploadServices, user: User, stamp: Stamp, securityMedium: string,
                             key: Bytes, doc: Document): (r: Initialised)
    ensures IsInitialisation(r.request, user, stamp, OrderType, OrderAttribute)
    ensures r.segments == sv.segment(OrderPayload(sv, doc, key))
    ensures r.request.header.numSegments == Some(|r.segments|)
  {
    var segments := sv.segment(OrderPayload(sv, doc, key));
    var signatureData := Protect(sv.crypto, sv.crypto.utf8Encode(sv.writers.userSignature(OrderSignature(sv, user, doc))), key);
    Initialised(
      Request(EbicsRequest, true,
        StaticHeader(user.hostId, None, Some(stamp.nonce), Some(stamp.timestamp), Some(user.partnerId),
          Some(user.userId), Some(securityMedium), Some(|segments|),
          Some(OrderDetails(OrderType, OrderAttribute, EmptyOrderParams)), true),
        MutableHeader(Some(Initialisation), None, None),
        Body(Some(DataTransfer(Some(DataEncryptionInfo(WrapKey(sv.crypto, key))), Some(signatureData), None)), None)),
      segments)
  }

  /**
    The Initialisation request is an authenticated CCT/OZHNN order with
    empty order parameters; its NumSegments is the number of segments of
    the protected canonical document; its signature data is the user
    signature document, protected under the same key that is RSA-wrapped
    into TransactionKey.
  */
  lemma InitialisationShape(sv: UploadServices, user: User, stamp: Stamp, securityMedium: string,
                            key: Bytes, doc: Document)
    ensures var i := InitialisationFor(sv, user, stamp, securityMedium, key, doc);
      && IsInitialisation(i.request, user, stamp, OrderType, OrderAttribute)
      && i.request.header.orderDetails.value.orderParams == EmptyOrderParams
      && i.request.header.securityMedium == Some(securityMedium)
      && i.segments == sv.segment(OrderPayload(sv, doc, key))
      && i.request.header.numSegments == Some(|i.segments|)
      && i.request.body.dataTransfer.Some?
      && i.request.body.dataTransfer.value.orderData.None?
      && i.request.body.dataTransfer.value.encryptionInfo == Some(DataEncryptionInfo(WrapKey(sv.crypto, key)))
      && i.request.body.dataTransfer.value.signatureData ==
           Some(Protect(sv.crypto, sv.crypto.utf8Encode(sv.writers.userSignature(OrderSignature(sv, user, doc))), key))
  {
  }

  /**
    The signed text and the uploaded text are one and the same: the
    document XML with every newline, carriage return and tab removed and
    every other character kept in order.
  */
  lemma SignedTextIsUploadedText(sv: UploadServices, user: User, doc: Document, key: Bytes)
    ensures exists t: string ::
      && t == Canonical(sv.documentXml(doc))
      && (forall i :: 0 <= i < |t| ==> !IsLayout(t[i]))
      && OrderSignature(sv, user, doc).signatureValue == sv.crypto.signData(sv.crypto.utf8Encode(t), user.signKeys)
      && OrderPayload(sv, doc, key) == Protect(sv.crypto, sv.crypto.utf8Encode(t), key)
  {
    var t := CanonicalDocument(sv, doc);
    FormatCctXmlIsCanonical(sv.documentXml(doc));
    FormatCctXmlProperties(sv.documentXml(doc), "", ' ');
  }

  /** CreateUploadRequests: one Transfer request per segment, numbered from 1, the last one flagged. */
  function CreateUploadRequests(hostId: string, transactionId: Option<string>, segments: seq<string>): (r: seq<Request>)
    ensures |r| == |segments|
    ensures forall i :: 0 <= i < |r| ==>
      && IsTransfer(r[i], hostId, transactionId, i + 1, i == |segments| - 1)
      && r[i].body.dataTransfer == Some(DataTransfer(None, None, Some(segments[i])))
  {
    seq(|segments|, i requires 0 <= i < |segments| =>
      TransferRequest(hostId, transactionId, i + 1, i + 1 == |segments|, Some(segments[i])))
  }

  /** The order data the requests carry, in order ("" where a request carries none). */
  function Payloads(reqs: seq<Request>): seq<string> {
    seq(|reqs|, i requires 0 <= i < |reqs| =>
      if reqs[i].body.dataTransfer.Some? then reqs[i].body.dataTransfer.value.orderData.GetOr("") else "")
  }

  /**
    The upload carries every segment unchanged and in order, so when the
    segments concatenate back to their input the requests' order data
    concatenates to the protected canonical document.
  */
  lemma UploadCarriesPayload(sv: UploadServices, user: User, stamp: Stamp, securityMedium: string,
                             key: Bytes, doc: Document, hostId: string, transactionId: Option<string>)
    requires Concat(sv.segment(OrderPayload(sv, doc, key))) == OrderPayload(sv, doc, key)
    ensures var segments := InitialisationFor(sv, user, stamp, securityMedium, key, doc).segments;
      && Payloads(CreateUploadRequests(hostId, transactionId, segments)) == segments
      && Concat(Payloads(CreateUploadRequests(hostId, transactionId, segments))) == OrderPayload(sv, doc, key)
  {
    var segments := InitialisationFor(sv, user, stamp, securityMedium, key, doc).segments;
    var reqs := CreateUploadRequests(hostId, transactionId, segments);
    assert Payloads(reqs) == segments;
  }

  /** Exactly one request, the final one, has LastSegment set. */
  lemma {:induction false} OnlyFinalRequestIsLast(hostId: string, transactionId: Option<string>, segments: seq<string>)
    ensures var r := CreateUploadRequests(hostId, transactionId, segments);
      forall i :: 0 <= i < |r| ==> (r[i].mutable.lastSegment == Some(true) <==> i == |r| - 1)
  {
  }

  class CctCommand {
    const transactionKey: Bytes
    var params: CctParams
    var initReq: Option<Request>
    var segments: Option<seq<string>>
    var transactionId: Option<string>

    /** Every stored Initialisation request declares the number of stored segments. */
    ghost predicate Valid()
      reads this
    {
      && (initReq.Some? <==> segments.Some?)
      && (initReq.Some? ==> initReq.value.header.numSegments == Some(|segments.value|))
    }

    /** The transaction key is drawn once, here (it is a parameter of the model). */
    constructor (transactionKey: Bytes, params: CctParams)
      ensures this.transactionKey == transactionKey && this.params == params
      ensures initReq.None? && segments.None? && transactionId.None?
      ensures Valid()
    {
      this.transactionKey := transactionKey;
      this.params := params;
      initReq := None;
      segments := None;
      transactionId := None;
    }

    /** Order type "CCT", attribute "OZHNN", an upload. */
    function Descriptor(): (d: Protocol.Descriptor)
      ensures d == Protocol.Descriptor("CCT", "OZHNN", Upload)
    {
      Protocol.Descriptor(OrderType, OrderAttribute, Upload)
    }

    /** CreateInitRequest: the document, then the Initialisation request and its segments. */
    method CreateInitRequest(sv: UploadServices, user: User, stamp: Stamp, ids: DocumentIds)
      returns (r: Result<Initialised, EbicsError>)
      ensures var d := CctDocumentOf(params, ids, sv.parseAmount);
        && (d.Err? ==> r == Err(CreateRequestError(OrderType, InvalidAmount)))
        && (d.Ok? ==> r == Ok(InitialisationFor(sv, user, stamp, params.securityMedium, transactionKey, d.value)))
    {
      var doc := CreateCctDoc(params, ids, sv.parseAmount);
      if doc.Err? {
        InvalidAmountAborts(params, ids, sv.parseAmount);
        return Err(doc.error);
      }
      return Ok(InitialisationFor(sv, user, stamp, params.securityMedium, transactionKey, doc.value));
    }

    /** The InitRequest getter: builds the request and stores it with its segments; a failure stores nothing. */
    method InitRequest(sv: UploadServices, user: User, stamp: Stamp, ids: DocumentIds)
      returns (r: Result<Request, EbicsError>)
      requires Valid()
      modifies this
      ensures Valid()
      ensures params == old(params) && transactionId == old(transactionId)
      ensures var d := CctDocumentOf(params, ids, sv.parseAmount);
        && (d.Err? ==> r == Err(CreateRequestError(OrderType, InvalidAmount))
                       && initReq == old(initReq) && segments == old(segments))
        && (d.Ok? ==>
              var i := InitialisationFor(sv, user, stamp, params.securityMedium, transactionKey, d.value);
              r == Ok(i.request) && initReq == Some(i.request) && segments == Some(i.segments))
    {
      var res := CreateInitRequest(sv, user, stamp, ids);
      if res.Err? {
        return Err(res.error);
      }
      initReq := Some(res.value.request);
      segments := Some(res.value.segments);
      return Ok(res.value.request);
    }

    /** The Requests getter: the upload requests for the stored segments; none stored is an error. */
    function Requests(hostId: string): (r: Result<seq<Request>, EbicsError>)
      reads this
      ensures r.Err? <==> segments.None?
      ensures r.Err? ==> r.error == CreateRequestError(OrderType, NoUploadSegments)
      ensures r.Ok? ==> |r.value| == |segments.value| && Payloads(r.value) == segments.value
      ensures r.Ok? ==> forall i :: 0 <= i < |r.value| ==>
        IsTransfer(r.value[i], hostId, transactionId, i + 1, i == |segments.value| - 1)
    {
      if segments.None? then Err(CreateRequestError(OrderType, NoUploadSegments))
      else
        var reqs := CreateUploadRequests(hostId, transactionId, segments.value);
        assert Payloads(reqs) == segments.value;
        Ok(reqs)
    }

    /** There is no Receipt request (null). */
    function ReceiptRequest(): (r: Option<Request>)
      ensures r.None?
    {
      None
    }

    /** Captures the transaction id from a non-error Initialisation response; nothing else changes. */
    method Deserialize(dr: DeserializeResponse) returns (r: Result<DeserializeResponse, EbicsError>)
      modifies this
      ensures r == Ok(dr)
      ensures params == old(params) && initReq == old(initReq) && segments == old(segments)
      ensures transactionId ==
        if !ShortCircuits(dr) && dr.phase == Initialisation then Some(dr.transactionId) else old(transactionId)
    {
      if dr.hasError || dr.isRecoverySync {
        return Ok(dr);
      }
      if dr.phase == Initialisation {
        transactionId := Some(dr.transactionId);
      }
      return Ok(dr);
    }

    /**
      After an Initialisation request was stored, Requests sends exactly the
      number of Transfer requests it declared, the last of them flagged.
    */
    lemma UploadMatchesDeclaredCount(hostId: string)
      requires Valid() && initReq.Some?
      ensures Requests(hostId).Ok?
      ensures Some(|Requests(hostId).value|) == initReq.value.header.numSegments
      ensures |Requests(hostId).value| > 0 ==>
        Requests(hostId).value[|Requests(hostId).value| - 1].mutable.lastSegment == Some(true)
    {
    }
  }
}
