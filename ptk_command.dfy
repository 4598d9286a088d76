/**
  The customer-protocol download (PtkCommand): a single Initialisation
  exchange whose decrypted order data is appended to the response text,
  then a Receipt.  There is no Transfer phase.
*/
module PtkCommand {
  import opened Wrappers
  import opened Protocol
  import opened EbicsRequests
  import opened Services
  import D = StartEndDateOrderParams

  const OrderType: string := "PTK"
  const OrderAttribute: string := "DZHNN"

  datatype PtkParams = PtkParams(securityMedium: string, startDate: D.DateTime, endDate: D.DateTime)

  /** Everything a PtkCommand changes while it interprets responses. */
  datatype PtkState = PtkState(transactionId: Option<string>, data: Option<string>)

  const Initial: PtkState := PtkState(None, None)

  datatype Outcome = Outcome(state: PtkState, result: Result<DeserializeResponse, EbicsError>)

  /**
    One response interpreted.  `plain` is the decrypted, decompressed
    order data, or None when that chain fails; `decode` is UTF-8 decoding.
    The new text and the transaction id are assigned only after decryption
    succeeded.
  */
  function Interpret(s: PtkState, dr: DeserializeResponse, plain: Option<Bytes>, decode: Bytes -> string): (o: Outcome)
    ensures o.result.Ok? ==> o.result.value == dr
    ensures o.result.Err? ==> o.result.error == DeserializationError(OrderType) && o.state == s
    ensures s.data.Some? ==> o.state.data.Some? && s.data.value <= o.state.data.value
  {
    if ShortCircuits(dr) || dr.phase != Initialisation then Outcome(s, Ok(dr))
    else if plain.None? then Outcome(s, Err(DeserializationError(OrderType)))
    else Outcome(PtkState(Some(dr.transactionId), Some(s.data.GetOr("") + decode(plain.value))), Ok(dr))
  }

  /** Error and recovery-sync responses, and responses in any phase but Initialisation, change nothing. */
  lemma OnlyInitialisationChangesState(s: PtkState, dr: DeserializeResponse, plain: Option<Bytes>, decode: Bytes -> string)
    ensures ShortCircuits(dr) || dr.phase != Initialisation ==> Interpret(s, dr, plain, decode) == Outcome(s, Ok(dr))
    ensures Interpret(s, dr, plain, decode).state != s ==> !ShortCircuits(dr) && dr.phase == Initialisation
  {
  }

  /**
    At Initialisation the text becomes the previous text (none read as "")
    followed by the decrypted text, and the transaction id is captured; a
    failed decryption changes nothing and is reported as a deserialization
    error.
  */
  lemma InitialisationAppendsAndCaptures(s: PtkState, dr: DeserializeResponse, plain: Option<Bytes>, decode: Bytes -> string)
    requires !ShortCircuits(dr) && dr.phase == Initialisation
    ensures var o := Interpret(s, dr, plain, decode);
      && (plain.None? <==> o.result.Err?)
      && (plain.None? ==> o.state == s && o.result == Err(DeserializationError(OrderType)))
      && (plain.Some? ==>
            && o.result == Ok(dr)
            && o.state.transactionId == Some(dr.transactionId)
            && o.state.data == Some(s.data.GetOr("") + decode(plain.value))
            && (s.data.Some? ==> s.data.value <= o.state.data.value))
  {
  }

  /** The state after interpreting a sequence of responses, oldest first, stopping at nothing. */
  function Feed(s: PtkState, inputs: seq<(DeserializeResponse, Option<Bytes>)>, decode: Bytes -> string): PtkState {
    if inputs == [] then s
    else
      var last := inputs[|inputs| - 1];
      Interpret(Feed(s, inputs[..|inputs| - 1], decode), last.0, last.1, decode).state
  }

  /**
    Over successive successful Initialisation responses the text is the
    in-order concatenation of their decrypted texts after the initial one,
    and the transaction id is the last one received.
  */
  lemma {:induction false} InitialisationsAccumulate(s: PtkState, inputs: seq<(DeserializeResponse, Option<Bytes>)>,
                                                    decode: Bytes -> string)
    requires forall i :: 0 <= i < |inputs| ==>
      !ShortCircuits(inputs[i].0) && inputs[i].0.phase == Initialisation && inputs[i].1.Some?
    ensures Feed(s, inputs, decode).data ==
      if inputs == [] then s.data
      else Some(s.data.GetOr("") + Concat(seq(|inputs|, i requires 0 <= i < |inputs| => decode(inputs[i].1.value))))
    ensures inputs != [] ==> Feed(s, inputs, decode).transactionId == Some(inputs[|inputs| - 1].0.transactionId)
  {
    if inputs != [] {
      var n := |inputs| - 1;
      var texts := seq(|inputs|, i requires 0 <= i < |inputs| => decode(inputs[i].1.value));
      InitialisationsAccumulate(s, inputs[..n], decode);
      assert texts[..n] == seq(n, i requires 0 <= i < n => decode(inputs[..n][i].1.value));
      var before := Feed(s, inputs[..n], decode);
      assert Feed(s, inputs, decode).data == Some(before.data.GetOr("") + texts[n]);
      if n > 0 {
        assert Concat(texts) == Concat(texts[..n]) + texts[n];
        assert before.data.GetOr("") == s.data.GetOr("") + Concat(texts[..n]);
        assert s.data.GetOr("") + Concat(texts) == s.data.GetOr("") + Concat(texts[..n]) + texts[n];
      } else {
        assert texts[..n] == [] && inputs[..n] == [];
        assert Concat(texts) == "" + texts[0];
        assert s.data.GetOr("") + Concat(texts) == s.data.GetOr("") + texts[0];
      }
    }
  }

  class PtkCommand {
    var params: PtkParams
    var transactionId: Option<string>
    var data: Option<string>   // Response.Data

    constructor (params: PtkParams)
      ensures this.params == params && State() == Initial
    {
      this.params := params;
      transactionId := None;
      data := None;
    }

    ghost function State(): PtkState
      reads this
    {
      PtkState(transactionId, data)
    }

    /** Order type "PTK", attribute "DZHNN", a download. */
    function Descriptor(): (d: Protocol.Descriptor)
      ensures d == Protocol.Descriptor("PTK", "DZHNN", Download)
    {
      Protocol.Descriptor(OrderType, OrderAttribute, Download)
    }

    /** Interprets one bank response; the new state is the one Interpret describes. */
    method Deserialize(dr: DeserializeResponse, plain: Option<Bytes>, decode: Bytes -> string)
      returns (r: Result<DeserializeResponse, EbicsError>)
      modifies this
      ensures Outcome(State(), r) == Interpret(old(State()), dr, plain, decode)
      ensures params == old(params)
    {
      if dr.hasError || dr.isRecoverySync {
        return Ok(dr);
      }
      if dr.phase != Initialisation {
        return Ok(dr);
      }
      if plain.None? {
        return Err(DeserializationError(OrderType));
      }
      data := Some(data.GetOr("") + decode(plain.value));
      transactionId := Some(dr.transactionId);
      return Ok(dr);
    }

    /** There are no Transfer requests (null). */
    function Requests(): (r: Option<seq<Request>>)
      ensures r.None?
    {
      None
    }

    /** The Receipt request acknowledging the captured transaction with receipt code "0". */
    function ReceiptRequest(hostId: string): (r: Request)
      reads this
      ensures IsReceipt(r, hostId, transactionId)
    {
      EbicsRequests.ReceiptRequest(hostId, transactionId)
    }

    /** The Initialisation request: the protocol order with its date range, no transaction yet. */
    function InitRequest(user: User, stamp: Stamp): (r: Request)
      reads this
      ensures IsInitialisation(r, user, stamp, OrderType, OrderAttribute)
      ensures r.header.orderDetails.value.orderParams == StartEndDate(params.startDate, params.endDate)
      ensures r.header.securityMedium == Some(params.securityMedium) && r.header.numSegments.None?
      ensures r.body == Body(None, None)
    {
      Request(EbicsRequest, true,
        StaticHeader(user.hostId, None, Some(stamp.nonce), Some(stamp.timestamp), Some(user.partnerId),
          Some(user.userId), Some(params.securityMedium), None,
          Some(OrderDetails(OrderType, OrderAttribute, StartEndDate(params.startDate, params.endDate))), true),
        MutableHeader(Some(Initialisation), None, None),
        Body(None, None))
    }

    /** A PTK download is two exchanges: the Initialisation and the Receipt. */
    lemma TwoRoundTrips(hostId: string, user: User, stamp: Stamp)
      ensures RoundTrips(Some(InitRequest(user, stamp)), Requests(), Some(ReceiptRequest(hostId))) == 2
    {
    }
  }
}
