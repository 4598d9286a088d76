/**
  The ISO 20022 pain.001 CustomerCreditTransferInitiation document that the
  credit-transfer upload builds from its parameters, and the canonical
  text form that is signed and sent.  Amounts are exact (C# decimal), as
  `real`; the parser is a parameter, and rendering with two decimals is
  not modelled.
*/
module CctDocument {
  import opened Wrappers
  import opened Protocol

  const OrderType: string := "CCT"

  datatype CreditTransferTransactionInfo = CreditTransferTransactionInfo(
    endToEndId: Option<string>,
    amount: string,
    currencyCode: string,
    creditorAgent: string,
    creditorName: string,
    creditorAccount: string,
    remittanceInfo: string)

  datatype PaymentInfo = PaymentInfo(
    batchBooking: bool,
    executionDate: string,
    debtorName: string,
    debtorAccount: string,
    debtorAgent: string,
    creditTransferTransactionInfos: seq<CreditTransferTransactionInfo>)

  datatype CctParams = CctParams(securityMedium: string, initiatingParty: string, paymentInfos: seq<PaymentInfo>)

  /** CdtTrfTxInf: one credit transfer item. */
  datatype CdtTrfTxInf = CdtTrfTxInf(
    endToEndId: string,
    currency: string,
    instructedAmount: real,
    creditorAgentBic: string,
    creditorName: string,
    creditorIban: string,
    remittanceInfo: string)

  /** PmtInf: one payment information block with its items. */
  datatype PmtInf = PmtInf(
    pmtInfId: string,
    pmtMtd: string,
    batchBooking: string,
    nbOfTxs: int,
    ctrlSum: real,
    serviceLevel: string,
    requestedExecutionDate: string,
    debtorName: string,
    debtorIban: string,
    debtorAgentBic: string,
    chargeBearer: string,
    transactions: seq<CdtTrfTxInf>)

  datatype GroupHeader = GroupHeader(
    msgId: string,
    creationDateTime: string,
    nbOfTxs: int,
    ctrlSum: real,
    initiatingParty: string)

  datatype Document = Document(groupHeader: GroupHeader, paymentInfos: seq<PmtInf>)

  /** The nonces and the clock reading the document embeds: the k-th payment info's id is pmtInfId(k). */
  datatype DocumentIds = DocumentIds(msgId: string, creationDateTime: string, pmtInfId: nat -> string)

  predicate AmountsParse(txs: seq<CreditTransferTransactionInfo>, parse: string -> Option<real>) {
    forall j :: 0 <= j < |txs| ==> parse(txs[j].amount).Some?
  }

  predicate AllAmountsParse(pis: seq<PaymentInfo>, parse: string -> Option<real>) {
    forall i :: 0 <= i < |pis| ==> AmountsParse(pis[i].creditTransferTransactionInfos, parse)
  }

  function SumOfAmounts(txs: seq<CreditTransferTransactionInfo>, parse: string -> Option<real>): real
    requires AmountsParse(txs, parse)
  {
    if txs == [] then 0.0
    else SumOfAmounts(txs[..|txs| - 1], parse) + parse(txs[|txs| - 1].amount).value
  }

  /** The number of credit transfer items over all payment infos. */
  function TotalTxCount(pis: seq<PaymentInfo>): int {
    if pis == [] then 0
    else TotalTxCount(pis[..|pis| - 1]) + |pis[|pis| - 1].creditTransferTransactionInfos|
  }

  /** The sum of all item amounts over all payment infos. */
  function TotalAmount(pis: seq<PaymentInfo>, parse: string -> Option<real>): real
    requires AllAmountsParse(pis, parse)
  {
    if pis == [] then 0.0
    else TotalAmount(pis[..|pis| - 1], parse) + SumOfAmounts(pis[|pis| - 1].creditTransferTransactionInfos, parse)
  }

  function TransactionElement(tx: CreditTransferTransactionInfo, parse: string -> Option<real>): CdtTrfTxInf
    requires parse(tx.amount).Some?
  {
    CdtTrfTxInf(tx.endToEndId.GetOr("NOTPROVIDED"), tx.currencyCode, parse(tx.amount).value,
      tx.creditorAgent, tx.creditorName, tx.creditorAccount, tx.remittanceInfo)
  }

  function PaymentInfoElement(pi: PaymentInfo, pmtInfId: string, parse: string -> Option<real>): PmtInf
    requires AmountsParse(pi.creditTransferTransactionInfos, parse)
  {
    var txs := pi.creditTransferTransactionInfos;
    PmtInf(pmtInfId, "TRF", if pi.batchBooking then "true" else "false", |txs|,
      SumOfAmounts(txs, parse), "SEPA", pi.executionDate, pi.debtorName, pi.debtorAccount,
      pi.debtorAgent, "SLEV",
      seq(|txs|, j requires 0 <= j < |txs| => TransactionElement(txs[j], parse)))
  }

  /** The document the parameters describe, or the invalid-amount error. */
  function CctDocumentOf(params: CctParams, ids: DocumentIds, parse: string -> Option<real>): (r: Result<Document, EbicsError>)
    ensures r.Err? <==> !AllAmountsParse(params.paymentInfos, parse)
    ensures r.Err? ==> r.error == CreateRequestError(OrderType, InvalidAmount)
    ensures r.Ok? ==>
      && |r.value.paymentInfos| == |params.paymentInfos|
      && r.value.groupHeader.msgId == ids.msgId
      && r.value.groupHeader.initiatingParty == params.initiatingParty
  {
    var pis := params.paymentInfos;
    if !AllAmountsParse(pis, parse) then Err(CreateRequestError(OrderType, InvalidAmount))
    else
      Ok(Document(
        GroupHeader(ids.msgId, ids.creationDateTime, TotalTxCount(pis), TotalAmount(pis, parse), params.initiatingParty),
        seq(|pis|, k requires 0 <= k < |pis| => PaymentInfoElement(pis[k], ids.pmtInfId(k), parse))))
  }

  /** The first pass over one payment info's items: their amount sum, or None at the first unparsable amount. */
  method SumItemAmounts(txs: seq<CreditTransferTransactionInfo>, parse: string -> Option<real>)
    returns (r: Option<real>)
    ensures r.Some? <==> AmountsParse(txs, parse)
    ensures r.Some? ==> r.value == SumOfAmounts(txs, parse)
  {
    var sum: real := 0.0;
    var j := 0;
    while j < |txs|
      invariant 0 <= j <= |txs|
      invariant AmountsParse(txs[..j], parse)
      invariant sum == SumOfAmounts(txs[..j], parse)
    {
      var amount := parse(txs[j].amount);
      if amount.None? {
        return None;
      }
      assert txs[..j + 1][..j] == txs[..j];
      sum := sum + amount.value;
      j := j + 1;
    }
    assert txs[..j] == txs;
    return Some(sum);
  }

  /** The second pass over one payment info's items: its CdtTrfTxInf elements and its control sum. */
  method BuildTransactions(txs: seq<CreditTransferTransactionInfo>, parse: string -> Option<real>)
    returns (ctrlSum: real, xmlCtis: seq<CdtTrfTxInf>)
    requires AmountsParse(txs, parse)
    ensures ctrlSum == SumOfAmounts(txs, parse)
    ensures |xmlCtis| == |txs|
    ensures forall m :: 0 <= m < |txs| ==> xmlCtis[m] == TransactionElement(txs[m], parse)
  {
    ctrlSum := 0.0;
    xmlCtis := [];
    var j := 0;
    while j < |txs|
      invariant 0 <= j <= |txs|
      invariant ctrlSum == SumOfAmounts(txs[..j], parse)
      invariant |xmlCtis| == j
      invariant forall m :: 0 <= m < j ==> xmlCtis[m] == TransactionElement(txs[m], parse)
    {
      var cti := txs[j];
      var endToEndId := cti.endToEndId.GetOr("NOTPROVIDED");
      var amount := parse(cti.amount).value;
      assert txs[..j + 1][..j] == txs[..j];
      ctrlSum := ctrlSum + amount;
      xmlCtis := xmlCtis + [CdtTrfTxInf(endToEndId, cti.currencyCode, amount,
        cti.creditorAgent, cti.creditorName, cti.creditorAccount, cti.remittanceInfo)];
      j := j + 1;
    }
    assert txs[..j] == txs;
  }

  /** The first pass: the item count and amount total, or None at the first unparsable amount. */
  method CountAndSum(pis: seq<PaymentInfo>, parse: string -> Option<real>)
    returns (r: Option<(int, real)>)
    ensures r.Some? <==> AllAmountsParse(pis, parse)
    ensures r.Some? ==> r.value == (TotalTxCount(pis), TotalAmount(pis, parse))
  {
    var sum: real := 0.0;
    var trxCount := 0;
    var i := 0;
    while i < |pis|
      invariant 0 <= i <= |pis|
      invariant AllAmountsParse(pis[..i], parse)
      invariant trxCount == TotalTxCount(pis[..i])
      invariant sum == TotalAmount(pis[..i], parse)
    {
      var txs := pis[i].creditTransferTransactionInfos;
      assert pis[..i + 1][..i] == pis[..i];
      trxCount := trxCount + |txs|;
      var itemSum := SumItemAmounts(txs, parse);
      if itemSum.None? {
        return None;
      }
      sum := sum + itemSum.value;
      i := i + 1;
    }
    assert pis[..i] == pis;
    return Some((trxCount, sum));
  }

  /** The second pass: one payment information block per payment info, the k-th with id pmtInfId(k). */
  method BuildPaymentInfos(pis: seq<PaymentInfo>, pmtInfId: nat -> string, parse: string -> Option<real>)
    returns (xmlPayInfos: seq<PmtInf>)
    requires AllAmountsParse(pis, parse)
    ensures |xmlPayInfos| == |pis|
    ensures forall k :: 0 <= k < |pis| ==> xmlPayInfos[k] == PaymentInfoElement(pis[k], pmtInfId(k), parse)
  {
    xmlPayInfos := [];
    var i := 0;
    while i < |pis|
      invariant 0 <= i <= |pis|
      invariant |xmlPayInfos| == i
      invariant forall k :: 0 <= k < i ==> xmlPayInfos[k] == PaymentInfoElement(pis[k], pmtInfId(k), parse)
    {
      var pi := pis[i];
      var piid := pmtInfId(i);
      var ctrlSum, xmlCtis := BuildTransactions(pi.creditTransferTransactionInfos, parse);
      var xmlPayInfo := PmtInf(piid, "TRF", if pi.batchBooking then "true" else "false",
        |pi.creditTransferTransactionInfos|, ctrlSum, "SEPA", pi.executionDate, pi.debtorName,
        pi.debtorAccount, pi.debtorAgent, "SLEV", xmlCtis);
      assert xmlPayInfo == PaymentInfoElement(pi, piid, parse);
      xmlPayInfos := xmlPayInfos + [xmlPayInfo];
      i := i + 1;
    }
  }

  /**
    CreateCctDoc: the first pass counts the items and sums their amounts,
    aborting on the first amount that does not parse; the second pass
    builds the payment information blocks; then the group header.
  */
  method CreateCctDoc(params: CctParams, ids: DocumentIds, parse: string -> Option<real>)
    returns (r: Result<Document, EbicsError>)
    ensures r == CctDocumentOf(params, ids, parse)
  {
    var pis := params.paymentInfos;
    var totals := CountAndSum(pis, parse);
    if totals.None? {
      return Err(CreateRequestError(OrderType, InvalidAmount));
    }
    var (trxCount, sum) := totals.value;
    var xmlPayInfos := BuildPaymentInfos(pis, ids.pmtInfId, parse);
    assert xmlPayInfos == seq(|pis|, k requires 0 <= k < |pis| => PaymentInfoElement(pis[k], ids.pmtInfId(k), parse));
    var doc := Document(GroupHeader(ids.msgId, ids.creationDateTime, trxCount, sum, params.initiatingParty), xmlPayInfos);
    return Ok(doc);
  }

  /** Any amount that fails to parse aborts document creation; nothing else does. */
  lemma {:induction false} InvalidAmountAborts(params: CctParams, ids: DocumentIds, parse: string -> Option<real>)
    ensures CctDocumentOf(params, ids, parse).Err? <==>
      exists i, j :: 0 <= i < |params.paymentInfos| && 0 <= j < |params.paymentInfos[i].creditTransferTransactionInfos|
        && parse(params.paymentInfos[i].creditTransferTransactionInfos[j].amount).None?
    ensures CctDocumentOf(params, ids, parse).Err? ==>
      CctDocumentOf(params, ids, parse).error == CreateRequestError(OrderType, InvalidAmount)
  {
  }

  /** The sum of the payment blocks' own item counts. */
  function SumNbOfTxs(blocks: seq<PmtInf>): int {
    if blocks == [] then 0 else SumNbOfTxs(blocks[..|blocks| - 1]) + blocks[|blocks| - 1].nbOfTxs
  }

  /** The sum of the payment blocks' own control sums. */
  function SumCtrlSums(blocks: seq<PmtInf>): real {
    if blocks == [] then 0.0 else SumCtrlSums(blocks[..|blocks| - 1]) + blocks[|blocks| - 1].ctrlSum
  }

  lemma {:induction false} BlockTotals(pis: seq<PaymentInfo>, blocks: seq<PmtInf>, parse: string -> Option<real>)
    requires AllAmountsParse(pis, parse) && |blocks| == |pis|
    requires forall k :: 0 <= k < |pis| ==>
      blocks[k].nbOfTxs == |pis[k].creditTransferTransactionInfos|
      && blocks[k].ctrlSum == SumOfAmounts(pis[k].creditTransferTransactionInfos, parse)
    ensures SumNbOfTxs(blocks) == TotalTxCount(pis)
    ensures SumCtrlSums(blocks) == TotalAmount(pis, parse)
  {
    if pis != [] {
      var n := |pis| - 1;
      assert AllAmountsParse(pis[..n], parse);
      BlockTotals(pis[..n], blocks[..n], parse);
    }
  }

  /**
    Each payment block's NbOfTxs and CtrlSum are its own item count and
    amount sum, its items are the payment info's items in order, with a
    missing EndToEndId emitted as "NOTPROVIDED" and a present one unchanged.
  */
  lemma PaymentBlocksDescribeTheirItems(params: CctParams, ids: DocumentIds, parse: string -> Option<real>)
    requires CctDocumentOf(params, ids, parse).Ok?
    ensures var doc := CctDocumentOf(params, ids, parse).value;
      && |doc.paymentInfos| == |params.paymentInfos|
      && forall i :: 0 <= i < |doc.paymentInfos| ==>
        var pi := params.paymentInfos[i];
        var txs := pi.creditTransferTransactionInfos;
        && doc.paymentInfos[i].nbOfTxs == |txs|
        && doc.paymentInfos[i].ctrlSum == SumOfAmounts(txs, parse)
        && |doc.paymentInfos[i].transactions| == |txs|
        && forall j :: 0 <= j < |txs| ==>
             && doc.paymentInfos[i].transactions[j].instructedAmount == parse(txs[j].amount).value
             && doc.paymentInfos[i].transactions[j].endToEndId ==
                  (if txs[j].endToEndId.None? then "NOTPROVIDED" else txs[j].endToEndId.value)
  {
    var pis := params.paymentInfos;
    var doc := CctDocumentOf(params, ids, parse).value;
    forall i | 0 <= i < |doc.paymentInfos|
      ensures doc.paymentInfos[i] == PaymentInfoElement(pis[i], ids.pmtInfId(i), parse)
    {
    }
  }

  /**
    The group header's NbOfTxs is the number of all items and its CtrlSum
    the sum of all their amounts; both equal the totals of the payment
    blocks' own NbOfTxs and CtrlSum.
  */
  lemma {:induction false} GroupHeaderTotals(params: CctParams, ids: DocumentIds, parse: string -> Option<real>)
    requires CctDocumentOf(params, ids, parse).Ok?
    ensures var doc := CctDocumentOf(params, ids, parse).value;
      && doc.groupHeader.nbOfTxs == TotalTxCount(params.paymentInfos)
      && doc.groupHeader.ctrlSum == TotalAmount(params.paymentInfos, parse)
      && doc.groupHeader.nbOfTxs == SumNbOfTxs(doc.paymentInfos)
      && doc.groupHeader.ctrlSum == SumCtrlSums(doc.paymentInfos)
  {
    var pis := params.paymentInfos;
    var doc := CctDocumentOf(params, ids, parse).value;
    forall k | 0 <= k < |pis|
      ensures doc.paymentInfos[k] == PaymentInfoElement(pis[k], ids.pmtInfId(k), parse)
    {
    }
    BlockTotals(pis, doc.paymentInfos, parse);
  }

  /** Two items of 10.00 and 5.50 in one payment info: count 2, control sum 15.50. */
  lemma TwoItemsExample(params: CctParams, ids: DocumentIds, parse: string -> Option<real>)
    requires |params.paymentInfos| == 1
    requires |params.paymentInfos[0].creditTransferTransactionInfos| == 2
    requires params.paymentInfos[0].creditTransferTransactionInfos[0].amount == "10.00"
    requires params.paymentInfos[0].creditTransferTransactionInfos[1].amount == "5.50"
    requires parse("10.00") == Some(10.00) && parse("5.50") == Some(5.50)
    ensures CctDocumentOf(params, ids, parse).Ok?
    ensures CctDocumentOf(params, ids, parse).value.groupHeader.nbOfTxs == 2
    ensures CctDocumentOf(params, ids, parse).value.groupHeader.ctrlSum == 15.50
  {
    var pis := params.paymentInfos;
    var txs := pis[0].creditTransferTransactionInfos;
    assert pis[..0] == [];
    assert AllAmountsParse(pis, parse);
    assert txs[..1][..0] == [];
    assert SumOfAmounts(txs[..1], parse) == 10.00;
    assert SumOfAmounts(txs, parse) == 15.50;
    assert TotalAmount(pis, parse) == 15.50;
    assert TotalTxCount(pis) == 2;
  }

  // ---- canonical text: FormatCctXml ----

  predicate IsLayout(c: char) {
    c == '\n' || c == '\r' || c == '\t'
  }

  /** string.Replace(c, ""): every occurrence of c removed. */
  function RemoveAll(s: string, c: char): (r: string)
    ensures forall d :: d in r ==> d in s && d != c
  {
    if s == [] then [] else (if s[0] == c then [] else [s[0]]) + RemoveAll(s[1..], c)
  }

  /** The unformatted XML text with every newline, carriage return and tab removed, in that order. */
  function FormatCctXml(xml: string): (r: string)
    ensures forall c :: c in r ==> !IsLayout(c) && c in xml
  {
    RemoveAll(RemoveAll(RemoveAll(xml, '\n'), '\r'), '\t')
  }

  /** The reference: one pass that keeps every non-layout character, in order. */
  function Canonical(s: string): string {
    if s == [] then [] else (if IsLayout(s[0]) then [] else [s[0]]) + Canonical(s[1..])
  }

  lemma {:induction false} RemoveAllCons(x: char, t: string, c: char)
    ensures RemoveAll([x] + t, c) == (if x == c then [] else [x]) + RemoveAll(t, c)
  {
    assert ([x] + t)[1..] == t;
  }

  lemma {:induction false} RemoveAllAppend(a: string, b: string, c: char)
    ensures RemoveAll(a + b, c) == RemoveAll(a, c) + RemoveAll(b, c)
  {
    if a == [] {
      assert a + b == b;
    } else {
      assert a + b == [a[0]] + (a[1..] + b);
      RemoveAllCons(a[0], a[1..] + b, c);
      RemoveAllAppend(a[1..], b, c);
      assert a == [a[0]] + a[1..];
      RemoveAllCons(a[0], a[1..], c);
    }
  }

  /** The three Replace calls remove exactly the layout characters and keep the rest in order. */
  lemma {:induction false} FormatCctXmlIsCanonical(s: string)
    ensures FormatCctXml(s) == Canonical(s)
  {
    if s != [] {
      var x, t := s[0], s[1..];
      assert s == [x] + t;
      var k1 := if x == '\n' then [] else [x];
      RemoveAllCons(x, t, '\n');
      RemoveAllAppend(k1, RemoveAll(t, '\n'), '\r');
      var k2 := RemoveAll(k1, '\r');
      RemoveAllAppend(k2, RemoveAll(RemoveAll(t, '\n'), '\r'), '\t');
      if x != '\n' {
        RemoveAllCons(x, [], '\r');
        assert [x] + [] == [x];
        if x != '\r' {
          RemoveAllCons(x, [], '\t');
        }
      }
      FormatCctXmlIsCanonical(t);
    }
  }

  lemma {:induction false} CanonicalAppend(a: string, b: string)
    ensures Canonical(a + b) == Canonical(a) + Canonical(b)
  {
    if a != [] {
      assert (a + b)[1..] == a[1..] + b;
      assert (a + b)[0] == a[0];
      CanonicalAppend(a[1..], b);
    } else {
      assert a + b == b;
    }
  }

  lemma {:induction false} CanonicalOfCanonical(s: string)
    ensures Canonical(s) == s <== forall i :: 0 <= i < |s| ==> !IsLayout(s[i])
    ensures Canonical(Canonical(s)) == Canonical(s)
  {
    if s != [] {
      CanonicalOfCanonical(s[1..]);
      var head := if IsLayout(s[0]) then [] else [s[0]];
      CanonicalAppend(head, Canonical(s[1..]));
      if !IsLayout(s[0]) {
        assert Canonical(head) == head by {
          assert head[1..] == [];
        }
      }
    }
  }

  /**
    The canonical text holds no newline, carriage return or tab; splitting
    the input splits the output, and a one-character input is kept exactly
    when it is not a layout character (so every other character is kept,
    in order); canonicalising twice changes nothing.
  */
  lemma {:induction false} FormatCctXmlProperties(s: string, t: string, c: char)
    ensures forall i :: 0 <= i < |FormatCctXml(s)| ==> !IsLayout(FormatCctXml(s)[i])
    ensures FormatCctXml(s + t) == FormatCctXml(s) + FormatCctXml(t)
    ensures FormatCctXml([c]) == if IsLayout(c) then [] else [c]
    ensures FormatCctXml(FormatCctXml(s)) == FormatCctXml(s)
  {
    FormatCctXmlIsCanonical(s);
    FormatCctXmlIsCanonical(t);
    FormatCctXmlIsCanonical(s + t);
    FormatCctXmlIsCanonical([c]);
    FormatCctXmlIsCanonical(FormatCctXml(s));
    CanonicalAppend(s, t);
    CanonicalOfCanonical(s);
    assert [c][1..] == [];
  }
}
