/**
  The date-range statement download (StaCommand): an Initialisation
  request carrying the date range, Transfer requests for the remaining
  segments, and a Receipt.  Each response fills one slot of the order-data
  array, indexed by segment number - 1, and the command republishes the
  in-order concatenation of the slots after every Initialisation or
  Transfer response.
*/
module StaCommand {
  import opened Wrappers
  import opened Protocol
  import opened EbicsRequests
  import opened Services
  import D = StartEndDateOrderParams

  const OrderAttribute: string := "DZHNN"

  datatype StaParams = StaParams(securityMedium: string, startDate: D.DateTime, endDate: D.DateTime)

  /** string.Join("", slots): the slots in index order, an unfilled (null) slot contributing "". */
  function JoinSlots(slots: seq<Option<string>>): string {
    if slots == [] then "" else JoinSlots(slots[..|slots| - 1]) + slots[|slots| - 1].GetOr("")
  }

  /** Everything a StaCommand changes while it interprets responses. */
  datatype StaState = StaState(
    transactionId: Option<string>,
    numSegments: int,
    initSegment: int,
    initLastSegment: bool,
    orderData: Option<seq<Option<string>>>,  // None: no array allocated yet
    data: Option<string>,                    // Response.Data
    binaryData: Option<Bytes>)               // Response.BinaryData

  const Initial: StaState := StaState(None, 0, 0, false, None, None, None)

  /** The new state and what Deserialize returns (or the exception it throws). */
  datatype Outcome = Outcome(state: StaState, result: Result<DeserializeResponse, EbicsError>)

  /**
    One response interpreted.  `plain` is the decrypted, decompressed order
    data of the response, or None when that chain fails; `decode` is the
    UTF-8 decoding.  Every runtime fault (a negative segment count, a
    segment number outside the array, no array yet, a failed decryption)
    becomes a DeserializationError; at Initialisation the header fields are
    already assigned when such a fault occurs, as in the source.
  */
  function Interpret(s: StaState, orderType: string, dr: DeserializeResponse,
                     plain: Option<Bytes>, decode: Bytes -> string): (o: Outcome)
    ensures o.result.Ok? ==> o.result.value == dr
    ensures o.result.Err? ==> o.result.error == DeserializationError(orderType) && !ShortCircuits(dr)
  {
    var failed := Err(DeserializationError(orderType));
    if ShortCircuits(dr) then Outcome(s, Ok(dr))
    else match dr.phase
      case Initialisation =>
        var s1 := s.(transactionId := Some(dr.transactionId), numSegments := dr.numSegments,
                     initSegment := dr.segmentNumber, initLastSegment := dr.lastSegment);
        if dr.numSegments < 0 then Outcome(s1, failed)
        else
          var empty: seq<Option<string>> := seq(dr.numSegments, _ => None);
          if dr.numSegments == 0 then Outcome(s1.(orderData := Some(empty), data := Some(JoinSlots(empty))), Ok(dr))
          else if plain.None? then Outcome(s1.(orderData := Some(empty)), failed)
          else
            var s2 := s1.(orderData := Some(empty), binaryData := plain);
            if 1 <= dr.segmentNumber <= dr.numSegments then
              var slots := empty[dr.segmentNumber - 1 := Some(decode(plain.value))];
              Outcome(s2.(orderData := Some(slots), data := Some(JoinSlots(slots))), Ok(dr))
            else Outcome(s2, failed)
      case Transfer =>
        if s.orderData.None? || plain.None? || !(1 <= dr.segmentNumber <= |s.orderData.value|) then
          Outcome(s, failed)
        else
          var slots := s.orderData.value[dr.segmentNumber - 1 := Some(decode(plain.value))];
          Outcome(s.(orderData := Some(slots), data := Some(JoinSlots(slots))), Ok(dr))
      case Receipt => Outcome(s, Ok(dr))
  }

  /** Error and recovery-sync responses, and Receipt-phase responses, are returned and change nothing. */
  lemma OnlyInitialisationAndTransferChangeState(s: StaState, orderType: string, dr: DeserializeResponse,
                                               plain: Option<Bytes>, decode: Bytes -> string)
    ensures ShortCircuits(dr) || dr.phase == Receipt ==> Interpret(s, orderType, dr, plain, decode) == Outcome(s, Ok(dr))
    ensures Interpret(s, orderType, dr, plain, decode).state != s ==> !ShortCircuits(dr) && dr.phase != Receipt
  {
  }

  /**
    An Initialisation response records the transaction id, segment count,
    initial segment number and last-segment flag, and installs exactly
    numSegments slots.  With segments, the decrypted data goes into slot
    SegmentNumber - 1 and every other slot is empty; without, nothing is
    decrypted and Data becomes "".  It fails exactly when the count is
    negative, or when there are segments and the decryption fails or the
    segment number is outside 1..numSegments.
  */
  lemma InitialisationRecordsTransaction(s: StaState, orderType: string, dr: DeserializeResponse,
                                         plain: Option<Bytes>, decode: Bytes -> string)
    requires !ShortCircuits(dr) && dr.phase == Initialisation
    ensures var o := Interpret(s, orderType, dr, plain, decode);
      && o.state.transactionId == Some(dr.transactionId)
      && o.state.numSegments == dr.numSegments
      && o.state.initSegment == dr.segmentNumber
      && o.state.initLastSegment == dr.lastSegment
      && (o.result.Ok? <==> dr.numSegments == 0 || (dr.numSegments > 0 && plain.Some? && 1 <= dr.segmentNumber <= dr.numSegments))
      && (o.result.Err? ==> o.result.error == DeserializationError(orderType) && o.state.data == s.data)
      && (dr.numSegments < 0 ==> o.state.orderData == s.orderData)
      && (o.result.Err? && dr.numSegments > 0 ==> o.state.orderData == Some(seq(dr.numSegments, _ => None)))
      && (o.result.Ok? ==> o.result == Ok(dr) && o.state.orderData.Some? && |o.state.orderData.value| == dr.numSegments)
      && (o.result.Ok? && dr.numSegments == 0 ==> o.state.data == Some("") && o.state.binaryData == s.binaryData)
      && (o.result.Ok? && dr.numSegments > 0 ==>
            && o.state.binaryData == plain
            && o.state.orderData.value[dr.segmentNumber - 1] == Some(decode(plain.value))
            && forall i :: 0 <= i < dr.numSegments && i != dr.segmentNumber - 1 ==> o.state.orderData.value[i].None?)
  {
  }

  /**
    A Transfer response writes only slot SegmentNumber - 1 and Data; every
    other slot and field keeps its value.  It fails, changing nothing, when
    no Initialisation allocated the slots, when the segment number is
    outside them, or when the decryption fails.
  */
  lemma TransferWritesOneSlot(s: StaState, orderType: string, dr: DeserializeResponse,
                              plain: Option<Bytes>, decode: Bytes -> string)
    requires !ShortCircuits(dr) && dr.phase == Transfer
    ensures var o := Interpret(s, orderType, dr, plain, decode);
      && (o.result.Ok? <==> s.orderData.Some? && plain.Some? && 1 <= dr.segmentNumber <= |s.orderData.value|)
      && (o.result.Err? ==> o == Outcome(s, Err(DeserializationError(orderType))))
      && (o.result.Ok? ==>
            && o.state == s.(orderData := o.state.orderData, data := o.state.data)
            && o.state.orderData.Some? && |o.state.orderData.value| == |s.orderData.value|
            && o.state.orderData.value[dr.segmentNumber - 1] == Some(decode(plain.value))
            && forall i :: 0 <= i < |s.orderData.value| && i != dr.segmentNumber - 1 ==>
                 o.state.orderData.value[i] == s.orderData.value[i])
  {
  }

  /** After every successful Initialisation or Transfer response, Data is the join of all slots. */
  lemma DataIsJoinOfSlots(s: StaState, orderType: string, dr: DeserializeResponse,
                          plain: Option<Bytes>, decode: Bytes -> string)
    requires !ShortCircuits(dr) && dr.phase != Receipt
    requires Interpret(s, orderType, dr, plain, decode).result.Ok?
    ensures var t := Interpret(s, orderType, dr, plain, decode).state;
      t.orderData.Some? && t.data == Some(JoinSlots(t.orderData.value))
  {
  }

  lemma {:induction false} JoinSlotsAppend(a: seq<Option<string>>, b: seq<Option<string>>)
    ensures JoinSlots(a + b) == JoinSlots(a) + JoinSlots(b)
    decreases |b|
  {
    if b == [] {
      assert a + b == a;
    } else {
      var last := |b| - 1;
      assert (a + b)[..|a + b| - 1] == a + b[..last];
      JoinSlotsAppend(a, b[..last]);
    }
  }

  /** The join is the slot before position k, the text of slot k, then the slots after it. */
  lemma {:induction false} JoinSlotsAt(slots: seq<Option<string>>, k: int)
    requires 0 <= k < |slots|
    ensures JoinSlots(slots) == JoinSlots(slots[..k]) + slots[k].GetOr("") + JoinSlots(slots[k + 1..])
  {
    assert slots == slots[..k] + [slots[k]] + slots[k + 1..];
    JoinSlotsAppend(slots[..k] + [slots[k]], slots[k + 1..]);
    JoinSlotsAppend(slots[..k], [slots[k]]);
    assert JoinSlots([slots[k]]) == slots[k].GetOr("") by {
      assert [slots[k]][..0] == [];
    }
  }

  /** Once every slot is filled, the join is the concatenation of the segment texts in segment order. */
  lemma {:induction false} JoinSlotsFilled(slots: seq<Option<string>>, texts: seq<string>)
    requires |slots| == |texts|
    requires forall i :: 0 <= i < |slots| ==> slots[i] == Some(texts[i])
    ensures JoinSlots(slots) == Concat(texts)
  {
    if slots != [] {
      var last := |slots| - 1;
      JoinSlotsFilled(slots[..last], texts[..last]);
    }
  }

  /**
    When Data is the join of the slots, a successful Transfer for segment
    k + 1 replaces in Data exactly the text of slot k: the texts of the
    slots before and after it are kept around it.
  */
  lemma TransferReplacesOneText(s: StaState, orderType: string, dr: DeserializeResponse,
                                plain: Option<Bytes>, decode: Bytes -> string)
    requires !ShortCircuits(dr) && dr.phase == Transfer
    requires s.orderData.Some? && s.data == Some(JoinSlots(s.orderData.value))
    requires Interpret(s, orderType, dr, plain, decode).result.Ok?
    ensures var k := dr.segmentNumber - 1;
      var slots := s.orderData.value;
      && 0 <= k < |slots|
      && s.data.value == JoinSlots(slots[..k]) + slots[k].GetOr("") + JoinSlots(slots[k + 1..])
      && Interpret(s, orderType, dr, plain, decode).state.data.value
           == JoinSlots(slots[..k]) + decode(plain.value) + JoinSlots(slots[k + 1..])
  {
    var k := dr.segmentNumber - 1;
    var slots := s.orderData.value;
    var updated := slots[k := Some(decode(plain.value))];
    JoinSlotsAt(slots, k);
    JoinSlotsAt(updated, k);
    assert updated[..k] == slots[..k];
    assert updated[k + 1..] == slots[k + 1..];
  }

  /**
    Transfer responses for different segment numbers may arrive in either
    order: the slots are indexed by segment number, so the state reached is
    the same.
  */
  lemma TransfersCommute(s: StaState, orderType: string, decode: Bytes -> string,
                         a: DeserializeResponse, pa: Option<Bytes>,
                         b: DeserializeResponse, pb: Option<Bytes>)
    requires !ShortCircuits(a) && a.phase == Transfer
    requires !ShortCircuits(b) && b.phase == Transfer
    requires a.segmentNumber != b.segmentNumber
    ensures Interpret(Interpret(s, orderType, a, pa, decode).state, orderType, b, pb, decode).state
         == Interpret(Interpret(s, orderType, b, pb, decode).state, orderType, a, pa, decode).state
  {
    var ab := Interpret(Interpret(s, orderType, a, pa, decode).state, orderType, b, pb, decode).state;
    var ba := Interpret(Interpret(s, orderType, b, pb, decode).state, orderType, a, pa, decode).state;
    if ab.orderData.Some? && ba.orderData.Some? {
      assert ab.orderData.value == ba.orderData.value;
    }
  }

  /** Feeds a sequence of (response, decrypted data) pairs through Interpret. */
  function Feed(s: StaState, orderType: string, inputs: seq<(DeserializeResponse, Option<Bytes>)>,
                decode: Bytes -> string): StaState
    decreases |inputs|
  {
    if inputs == [] then s
    else Feed(Interpret(s, orderType, inputs[0].0, inputs[0].1, decode).state, orderType, inputs[1..], decode)
  }

  /** The bank's Transfer responses for segments from + 1 .. |parts|, in ascending order. */
  function TransferResponses(transactionId: string, parts: seq<Bytes>, from: nat): seq<(DeserializeResponse, Option<Bytes>)>
    requires from <= |parts|
    decreases |parts| - from
  {
    if from == |parts| then []
    else [(DeserializeResponse(false, false, Transfer, transactionId, from + 1, |parts|, from + 1 == |parts|), Some(parts[from]))]
         + TransferResponses(transactionId, parts, from + 1)
  }

  /** The bank's Initialisation response carrying segment 1 of |parts|. */
  function InitialisationResponse(transactionId: string, parts: seq<Bytes>): (DeserializeResponse, Option<Bytes>)
    requires |parts| > 0
  {
    (DeserializeResponse(false, false, Initialisation, transactionId, 1, |parts|, |parts| == 1), Some(parts[0]))
  }

  lemma {:induction false} TransfersFillSlots(s: StaState, orderType: string, decode: Bytes -> string,
                                              transactionId: string, parts: seq<Bytes>, from: nat)
    requires from <= |parts|
    requires s.orderData.Some? && |s.orderData.value| == |parts|
    requires forall i :: 0 <= i < from ==> s.orderData.value[i] == Some(decode(parts[i]))
    requires s.data == Some(JoinSlots(s.orderData.value))
    ensures var t := Feed(s, orderType, TransferResponses(transactionId, parts, from), decode);
      && t.orderData.Some? && |t.orderData.value| == |parts|
      && (forall i :: 0 <= i < |parts| ==> t.orderData.value[i] == Some(decode(parts[i])))
      && t.data == Some(JoinSlots(t.orderData.value))
    decreases |parts| - from
  {
    if from < |parts| {
      var inputs := TransferResponses(transactionId, parts, from);
      var o := Interpret(s, orderType, inputs[0].0, inputs[0].1, decode);
      assert inputs[1..] == TransferResponses(transactionId, parts, from + 1);
      TransfersFillSlots(o.state, orderType, decode, transactionId, parts, from + 1);
    }
  }

  /**
    A complete download: the Initialisation response with segment 1 of n,
    then the Transfer responses for segments 2..n in order, leave in Data
    the concatenation of all n segment texts in segment order.
  */
  lemma {:induction false} DownloadReassemblesInOrder(s: StaState, orderType: string, decode: Bytes -> string,
                                                      transactionId: string, parts: seq<Bytes>)
    requires |parts| > 0
    ensures Feed(s, orderType, [InitialisationResponse(transactionId, parts)] + TransferResponses(transactionId, parts, 1), decode).data
         == Some(Concat(seq(|parts|, i requires 0 <= i < |parts| => decode(parts[i]))))
  {
    var init := InitialisationResponse(transactionId, parts);
    var inputs := [init] + TransferResponses(transactionId, parts, 1);
    var s1 := Interpret(s, orderType, init.0, init.1, decode).state;
    assert inputs[1..] == TransferResponses(transactionId, parts, 1);
    assert Feed(s, orderType, inputs, decode) == Feed(s1, orderType, inputs[1..], decode);
    TransfersFillSlots(s1, orderType, decode, transactionId, parts, 1);
    var t := Feed(s1, orderType, inputs[1..], decode);
    var texts := seq(|parts|, i requires 0 <= i < |parts| => decode(parts[i]));
    JoinSlotsFilled(t.orderData.value, texts);
  }

  /**
    The Transfer requests a download issues after an Initialisation that
    reported numSegments segments starting at initSegment: one request per
    remaining segment, numbered initSegment + 1, initSegment + 2, ...,
    flagged last exactly when the number equals numSegments, all for the
    stored transaction.
  */
  predicate IsTransferSeries(reqs: seq<Request>, hostId: string, transactionId: Option<string>,
                             initSegment: int, numSegments: int)
  {
    && |reqs| == (if numSegments > 1 then numSegments - 1 else 0)
    && forall k :: 0 <= k < |reqs| ==>
         reqs[k] == TransferRequest(hostId, transactionId, initSegment + k + 1,
                                    initSegment + k + 1 == numSegments, None)
  }

  /**
    When the Initialisation carried segment 1 of n, the series requests
    exactly segments 2..n in ascending order, each a slot the Transfer
    response can fill, and only the final request is flagged last.
  */
  lemma TransferSeriesCoversRemainingSegments(reqs: seq<Request>, hostId: string, transactionId: Option<string>, n: int)
    requires n >= 1 && IsTransferSeries(reqs, hostId, transactionId, 1, n)
    ensures |reqs| == n - 1
    ensures forall k :: 0 <= k < |reqs| ==> IsTransfer(reqs[k], hostId, transactionId, k + 2, k == |reqs| - 1)
    ensures forall k :: 0 <= k < |reqs| ==> 1 <= reqs[k].mutable.segmentNumber.value <= n
    ensures forall j, k :: 0 <= j < k < |reqs| ==> reqs[j].mutable.segmentNumber.value < reqs[k].mutable.segmentNumber.value
  {
  }

  class StaCommand {
    var orderType: string
    var params: StaParams
    var transactionId: Option<string>
    var numSegments: int
    var initSegment: int
    var initLastSegment: bool
    var orderData: array?<Option<string>>
    var data: Option<string>
    var binaryData: Option<Bytes>

    constructor (orderType: string, params: StaParams)
      ensures this.orderType == orderType && this.params == params
      ensures State() == Initial
    {
      this.orderType := orderType;
      this.params := params;
      transactionId := None;
      numSegments := 0;
      initSegment := 0;
      initLastSegment := false;
      orderData := null;
      data := None;
      binaryData := None;
    }

    ghost function State(): StaState
      reads this, orderData
    {
      StaState(transactionId, numSegments, initSegment, initLastSegment,
        if orderData == null then None else Some(orderData[..]), data, binaryData)
    }

    function Descriptor(): (d: Protocol.Descriptor)
      reads this
      ensures d.orderAttribute == "DZHNN" && d.transactionType == Download && d.orderType == orderType
    {
      Protocol.Descriptor(orderType, OrderAttribute, Download)
    }

    /** Interprets one bank response; the new state is the one Interpret describes. */
    method Deserialize(dr: DeserializeResponse, plain: Option<Bytes>, decode: Bytes -> string)
      returns (r: Result<DeserializeResponse, EbicsError>)
      modifies this, orderData
      ensures Outcome(State(), r) == Interpret(old(State()), old(orderType), dr, plain, decode)
      ensures orderType == old(orderType) && params == old(params)
      ensures orderData != old(orderData) ==> fresh(orderData)
      ensures !ShortCircuits(dr) && dr.phase == Initialisation && dr.numSegments >= 0 ==> fresh(orderData)
      ensures ShortCircuits(dr) || dr.phase != Initialisation || dr.numSegments < 0 ==> orderData == old(orderData)
      ensures old(orderData) != null && (ShortCircuits(dr) || dr.phase != Transfer) ==> unchanged(old(orderData))
    {
      if dr.hasError || dr.isRecoverySync {
        return Ok(dr);
      }
      match dr.phase {
        case Initialisation =>
          r := ReadInitialisation(dr, plain, decode);
        case Transfer =>
          r := ReadTransfer(dr, plain, decode);
        case Receipt =>
          return Ok(dr);
      }
    }

    /** The Initialisation case: the header fields, then a new array of numSegments slots. */
    method ReadInitialisation(dr: DeserializeResponse, plain: Option<Bytes>, decode: Bytes -> string)
      returns (r: Result<DeserializeResponse, EbicsError>)
      requires !ShortCircuits(dr) && dr.phase == Initialisation
      modifies this
      ensures Outcome(State(), r) == Interpret(old(State()), old(orderType), dr, plain, decode)
      ensures orderType == old(orderType) && params == old(params)
      ensures dr.numSegments >= 0 ==> fresh(orderData)
      ensures dr.numSegments < 0 ==> orderData == old(orderData)
      ensures old(orderData) != null ==> unchanged(old(orderData))
    {
      transactionId := Some(dr.transactionId);
      numSegments := dr.numSegments;
      initSegment := dr.segmentNumber;
      initLastSegment := dr.lastSegment;
      if numSegments < 0 {
        return Err(DeserializationError(orderType));
      }
      orderData := new Option<string>[numSegments](_ => None);
      assert orderData[..] == seq(dr.numSegments, _ => None);
      if numSegments > 0 {
        if plain.None? {
          return Err(DeserializationError(orderType));
        }
        binaryData := plain;
        if !(1 <= dr.segmentNumber <= orderData.Length) {
          return Err(DeserializationError(orderType));
        }
        orderData[dr.segmentNumber - 1] := Some(decode(plain.value));
      }
      data := Some(JoinSlots(orderData[..]));
      return Ok(dr);
    }

    /** The Transfer case: one slot of the existing array written in place. */
    method ReadTransfer(dr: DeserializeResponse, plain: Option<Bytes>, decode: Bytes -> string)
      returns (r: Result<DeserializeResponse, EbicsError>)
      requires !ShortCircuits(dr) && dr.phase == Transfer
      modifies this, orderData
      ensures Outcome(State(), r) == Interpret(old(State()), old(orderType), dr, plain, decode)
      ensures orderType == old(orderType) && params == old(params)
      ensures orderData == old(orderData)
    {
      if orderData == null || plain.None? || !(1 <= dr.segmentNumber <= orderData.Length) {
        return Err(DeserializationError(orderType));
      }
      orderData[dr.segmentNumber - 1] := Some(decode(plain.value));
      data := Some(JoinSlots(orderData[..]));
      return Ok(dr);
    }

    /** The Transfer requests: none (null) once the Initialisation was the last segment. */
    method CreateRequests(hostId: string) returns (r: Option<seq<Request>>)
      ensures r.None? <==> initLastSegment
      ensures r.Some? ==> IsTransferSeries(r.value, hostId, transactionId, initSegment, numSegments)
    {
      if initLastSegment {
        return None;
      }
      var reqs: seq<Request> := [];
      var i := 1;
      while i < numSegments
        invariant 1 <= i <= (if numSegments > 1 then numSegments else 1)
        invariant |reqs| == i - 1
        invariant forall k :: 0 <= k < |reqs| ==>
          reqs[k] == TransferRequest(hostId, transactionId, initSegment + k + 1,
                                     initSegment + k + 1 == numSegments, None)
      {
        var req := TransferRequest(hostId, transactionId, i + initSegment, i + initSegment == numSegments, None);
        reqs := reqs + [req];
        i := i + 1;
      }
      return Some(reqs);
    }

    /** The Receipt request acknowledging the stored transaction with receipt code "0". */
    function CreateReceiptRequest(hostId: string): (r: Request)
      reads this
      ensures IsReceipt(r, hostId, transactionId)
    {
      ReceiptRequest(hostId, transactionId)
    }

    /** The Initialisation request: the configured order with its date range, no transaction yet. */
    function CreateInitRequest(user: User, stamp: Stamp): (r: Request)
      reads this
      ensures IsInitialisation(r, user, stamp, orderType, OrderAttribute)
      ensures r.header.orderDetails.value.orderParams == StartEndDate(params.startDate, params.endDate)
      ensures r.header.securityMedium == Some(params.securityMedium) && r.header.numSegments.None?
      ensures r.body == Body(None, None)
    {
      Request(EbicsRequest, true,
        StaticHeader(user.hostId, None, Some(stamp.nonce), Some(stamp.timestamp), Some(user.partnerId),
          Some(user.userId), Some(params.securityMedium), None,
          Some(OrderDetails(orderType, OrderAttribute, StartEndDate(params.startDate, params.endDate))), true),
        MutableHeader(Some(Initialisation), None, None),
        Body(None, None))
    }
  }
}
