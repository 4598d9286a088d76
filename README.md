# EBICS.Net order commands, modelled in Dafny

This project models the order commands of the EBICS.Net client library.
Each command tells the client which requests to send for one order
type. It also interprets the bank's responses phase by phase:
Initialisation, Transfer and Receipt. The model covers:

- **STA** (`StaCommand`): a segmented statement download. Each
  Initialisation or Transfer response fills one slot of an order-data
  array, indexed by segment number - 1. After every response the command
  republishes the in-order join of the slots. It issues one Transfer
  request for each remaining segment, then a Receipt with code "0".
- **PTK** (`PtkCommand`): a single-shot protocol download. The
  Initialisation response appends its text to the response data and
  gives the transaction id. A Receipt follows.
- **CCT** (`CctDocument`, `CctCommand`): a signed SEPA credit-transfer
  upload.
  - The command builds the ISO 20022 pain.001 document with its item
    counts and control sums.
  - It strips newlines, carriage returns and tabs from the document
    text, signs that canonical text, then compresses, AES-encrypts,
    base64-encodes and segments it.
  - The Initialisation request declares the segment count. One
    Transfer request per segment follows, numbered from 1, with only the
    last flagged.
- **SPR** (`SprCommand`): the single Initialisation request of a
  suspension. It carries a signature over one space, zero segments, and
  the transaction key that encrypts the signature data.
- **INI** (`IniCommand`): the single unsecured, unencrypted request that
  sends the user's public signature key.
- **StartEndDateOrderParams**: the `yyyy-MM-dd` Start/End date range of
  the download orders.

Shared modules:

- `Protocol` holds the parsed response record, the descriptors and the
  error kinds.
- `EbicsRequests` holds the request documents, reduced to the fields the
  commands set.
- `Services` holds the collaborators whose code is not part of this
  model.

STA, PTK and CCT change state as responses arrive, so each is a class.
Each class method is tied to a pure transition or specification function
(`StaCommand.Interpret`, `PtkCommand.Interpret`,
`CctDocument.CctDocumentOf`), and the lemmas state the protocol
properties about those functions. SPR and INI are pure, so they are
functions of the transaction key and the user.

Several inputs are parameters of the model rather than computed (see
"## Left out"):

- the parsed response record;
- the decrypted and decompressed order data, where None means that
  chain failed;
- the cryptographic primitives;
- the XML serialisers;
- the segmenter;
- the amount parser;
- nonces and the clock.

The model follows the code as written where that is surprising. A
failing STA Initialisation (a negative segment count, a failed
decryption, or a segment number outside the array) throws only after the
transaction id, segment count, initial segment and last-segment flag have
been assigned, so the model keeps those assignments on its error path.

## Model

| member | source | states |
|---|---|---|
| StartEndDateOrderParams.FormatDate | src/Xml/StartEndDateOrderParams.cs:24-25 | a date renders as ten characters: four year digits, '-', two month digits, '-', two day digits |
| StartEndDateOrderParams.Pad4Value | src/Xml/StartEndDateOrderParams.cs:24-25 | the zero-padded four-digit year field reads back as the year (0..9999) |
| StartEndDateOrderParams.Pad2Value | src/Xml/StartEndDateOrderParams.cs:24-25 | the zero-padded two-digit month and day fields read back as their number |
| StartEndDateOrderParams.FormatDateRoundTrip | src/Xml/StartEndDateOrderParams.cs:24-25 | parsing the rendered text gives back exactly the calendar day (year, month, day) of the DateTime |
| StartEndDateOrderParams.FormatDateIdentifiesDay | src/Xml/StartEndDateOrderParams.cs:24-25 | two DateTimes render the same text if and only if they fall on the same calendar day |
| StartEndDateOrderParams.Serialize | src/Xml/StartEndDateOrderParams.cs:19-28 | a StandardOrderParams element with exactly one DateRange child holding a Start then an End child, each a yyyy-MM-dd text; SerializeRoundTrip and SerializeIgnoresTimeOfDay state which days they carry |
| StartEndDateOrderParams.SerializeRoundTrip | src/Xml/StartEndDateOrderParams.cs:19-27 | the element is StandardOrderParams with one DateRange child holding Start then End; reading it back gives (start day, end day) in that order for every pair, an end before the start included |
| StartEndDateOrderParams.SerializeIgnoresTimeOfDay | src/Xml/StartEndDateOrderParams.cs:22-26 | two date pairs serialise identically if and only if they fall on the same calendar days; the time of day is dropped |
| EbicsRequests.ReceiptRequest | src/Commands/StaCommand.cs:160-178 | the receipt request is authenticated, names the host and the given transaction, has phase Receipt and receipt code "0", and carries no order data |
| StaCommand.Interpret | src/Commands/StaCommand.cs:50-79 | the response-interpretation step: a success returns the response itself, a failure is the order type's DeserializationError and never happens for error or recovery-sync responses; the lemmas below state the new state phase by phase |
| StaCommand.OnlyInitialisationAndTransferChangeState | src/Commands/StaCommand.cs:50-77 | error, recovery-sync and Receipt-phase responses are returned unchanged and leave every field unchanged; any state change comes from an Initialisation or Transfer response |
| StaCommand.InitialisationRecordsTransaction | src/Commands/StaCommand.cs:59-70 | Initialisation records the transaction id, segment count, initial segment and last-segment flag and installs exactly numSegments slots; with segments the decrypted text fills slot SegmentNumber-1 and all others stay empty; with none nothing is decrypted and Data is ""; it fails (DeserializationError) exactly for a negative count, a failed decryption, or a segment number outside 1..numSegments; after a negative count the old slots are kept, after the other two failures the slots are numSegments empty ones |
| StaCommand.TransferWritesOneSlot | src/Commands/StaCommand.cs:72-75 | a Transfer response writes only slot SegmentNumber-1 (and Data), every other slot and field keeps its value; before any Initialisation, with a failed decryption, or with a segment number outside the slots it fails and changes nothing |
| StaCommand.DataIsJoinOfSlots | src/Commands/StaCommand.cs:70-75 | after every successful Initialisation or Transfer response Data is the join of all slots in index order, empty slots contributing "" |
| StaCommand.JoinSlotsAppend | src/Commands/StaCommand.cs:70 | joining two runs of slots is joining each and concatenating |
| StaCommand.JoinSlotsAt | src/Commands/StaCommand.cs:70 | the join is the slots before k, then slot k's text, then the slots after k |
| StaCommand.JoinSlotsFilled | src/Commands/StaCommand.cs:70 | once every slot holds its segment's text, the join is the concatenation of the segment texts in segment order |
| StaCommand.TransferReplacesOneText | src/Commands/StaCommand.cs:72-75 | when Data is the join of the slots, a successful Transfer for segment k+1 replaces only slot k's text in Data, keeping the texts of the slots before and after it |
| StaCommand.TransfersCommute | src/Commands/StaCommand.cs:72-75 | Transfer responses for different segment numbers reach the same state in either order |
| StaCommand.TransfersFillSlots | src/Commands/StaCommand.cs:72-75 | the Transfer responses for segments from+1..n, in order, fill every remaining slot with its segment's text and keep Data the join of the slots |
| StaCommand.DownloadReassemblesInOrder | src/Commands/StaCommand.cs:57-77 | an Initialisation with segment 1 of n followed by Transfers for segments 2..n leaves Data equal to the concatenation of all n decrypted segment texts in segment order |
| StaCommand.TransferSeriesCoversRemainingSegments | src/Commands/StaCommand.cs:107-134 | after an Initialisation with segment 1 of n, the Transfer requests are exactly n-1, for segments 2..n in ascending order, each within the slots, only the final one flagged last |
| StaCommand.StaCommand.constructor | src/Commands/StaCommand.cs:26-33 | a new command has no transaction, no slots, no data, and keeps its order type and parameters |
| StaCommand.StaCommand.Descriptor | src/Commands/StaCommand.cs:33-35 | the order type set by the caller, attribute "DZHNN", direction Download |
| StaCommand.StaCommand.Deserialize | src/Commands/StaCommand.cs:40-90 | the new fields and array contents, and the returned response or error, are exactly those Interpret gives for the old state; an Initialisation with a non-negative count installs a freshly allocated array and leaves the old one untouched; an Initialisation with a negative count and every other response keep the same array, and only a Transfer writes into it |
| StaCommand.StaCommand.ReadInitialisation | src/Commands/StaCommand.cs:59-71 | the Initialisation case: the state Interpret gives, in a fresh array when the count is non-negative, the previous array left untouched |
| StaCommand.StaCommand.ReadTransfer | src/Commands/StaCommand.cs:72-76 | the Transfer case: the state Interpret gives, written in place into the same array |
| StaCommand.StaCommand.CreateRequests | src/Commands/StaCommand.cs:92-147 | null exactly when the Initialisation was the last segment; otherwise numSegments-1 (or no) Transfer requests for the stored transaction, numbered initSegment+1, initSegment+2, ... and flagged last exactly when the number equals numSegments |
| StaCommand.StaCommand.CreateReceiptRequest | src/Commands/StaCommand.cs:149-193 | a receipt with code "0" for the stored transaction id |
| StaCommand.StaCommand.CreateInitRequest | src/Commands/StaCommand.cs:195-256 | an authenticated Initialisation request with a nonce and timestamp, no transaction id, the order type with attribute "DZHNN", the security medium and the Start/End date range of the parameters, no segment count, and no body data |
| PtkCommand.OnlyInitialisationChangesState | src/Commands/PtkCommand.cs:47-57 | error and recovery-sync responses, and responses in any phase but Initialisation, are returned and change nothing |
| PtkCommand.Interpret | src/Commands/PtkCommand.cs:47-63 | the response-interpretation step: a success returns the response itself, a failure is PTK's DeserializationError and changes nothing, and existing Data is only ever extended |
| PtkCommand.InitialisationAppendsAndCaptures | src/Commands/PtkCommand.cs:59-72 | at Initialisation Data becomes the previous Data (none read as "") followed by the decrypted text and the transaction id is captured; a failed decryption changes neither and is a DeserializationError; the old Data is a prefix of the new |
| PtkCommand.InitialisationsAccumulate | src/Commands/PtkCommand.cs:59-61 | over successive successful Initialisation responses Data is the previous Data followed by all their texts in order, and the transaction id is the last one received |
| PtkCommand.PtkCommand.constructor | src/Commands/PtkCommand.cs:26-28 | a new command has no transaction and no data |
| PtkCommand.PtkCommand.Descriptor | src/Commands/PtkCommand.cs:29-34 | order type "PTK", attribute "DZHNN", direction Download |
| PtkCommand.PtkCommand.Deserialize | src/Commands/PtkCommand.cs:36-74 | the new transaction id and Data, and the returned response or error, are exactly those Interpret gives for the old state |
| PtkCommand.PtkCommand.Requests | src/Commands/PtkCommand.cs:30 | there are no Transfer requests (null) |
| PtkCommand.PtkCommand.ReceiptRequest | src/Commands/PtkCommand.cs:76-117 | a receipt with code "0" for the captured transaction id |
| PtkCommand.PtkCommand.InitRequest | src/Commands/PtkCommand.cs:119-180 | an authenticated Initialisation request with a nonce and timestamp, no transaction id and no segment count, order "PTK"/"DZHNN" with the date range and security medium of the parameters, and no body data |
| PtkCommand.PtkCommand.TwoRoundTrips | src/Commands/PtkCommand.cs:30-32 | a PTK transaction is two exchanges: Initialisation and Receipt |
| CctDocument.SumItemAmounts | src/Commands/CctCommand.cs:96-106 | the amount sum of one payment info's items, or none exactly when some amount does not parse |
| CctDocument.CountAndSum | src/Commands/CctCommand.cs:91-107 | the first pass yields the total item count and total amount over all payment infos, or none exactly when some amount does not parse |
| CctDocument.BuildTransactions | src/Commands/CctCommand.cs:113-165 | one CdtTrfTxInf per item in order, and the control sum is the sum of the items' amounts |
| CctDocument.BuildPaymentInfos | src/Commands/CctCommand.cs:109-201 | one PmtInf block per payment info in order, the k-th built from the k-th payment info with the k-th id |
| CctDocument.CreateCctDoc | src/Commands/CctCommand.cs:88-219 | the result is exactly the document the parameters describe (CctDocumentOf), or its invalid-amount error |
| CctDocument.CctDocumentOf | src/Commands/CctCommand.cs:88-219 | the reference definition of the document: an error exactly when some amount does not parse, the invalid-amount error; otherwise one PmtInf per payment info and a group header with the message id and initiating party; GroupHeaderTotals and PaymentBlocksDescribeTheirItems state its counts and sums |
| CctDocument.InvalidAmountAborts | src/Commands/CctCommand.cs:98-103 | document creation fails if and only if some item's amount does not parse, and the failure is the invalid-amount CreateRequestError |
| CctDocument.BlockTotals | src/Commands/CctCommand.cs:171-172 | blocks that carry their own item counts and amount sums add up to the total item count and total amount |
| CctDocument.PaymentBlocksDescribeTheirItems | src/Commands/CctCommand.cs:113-172 | each PmtInf's NbOfTxs and CtrlSum are its own item count and amount sum; its items are the payment info's items in order with their parsed amounts; a missing EndToEndId becomes "NOTPROVIDED" and a present one is kept |
| CctDocument.GroupHeaderTotals | src/Commands/CctCommand.cs:203-215 | the group header's NbOfTxs is the number of all items and its CtrlSum the sum of all amounts; both equal the sums of the PmtInf blocks' NbOfTxs and CtrlSum |
| CctDocument.TwoItemsExample | src/Commands/CctCommand.cs:91-107 | one payment info with items of 10.00 and 5.50 gives a group header with NbOfTxs 2 and CtrlSum 15.50 |
| CctDocument.RemoveAll | src/Commands/CctCommand.cs:224-226 | Replace(c, "") leaves no c and keeps only characters of its input |
| CctDocument.FormatCctXml | src/Commands/CctCommand.cs:221-228 | the canonical text contains no newline, carriage return or tab, and only characters of the input |
| CctDocument.RemoveAllCons | src/Commands/CctCommand.cs:224-226 | removing c from a text that starts with x keeps x unless it is c |
| CctDocument.RemoveAllAppend | src/Commands/CctCommand.cs:224-226 | removing c from a concatenation removes it from each part |
| CctDocument.FormatCctXmlIsCanonical | src/Commands/CctCommand.cs:221-228 | the three Replace calls equal the one-pass filter that drops exactly the layout characters and keeps all others in order |
| CctDocument.CanonicalAppend | src/Commands/CctCommand.cs:221-228 | the filter distributes over concatenation |
| CctDocument.CanonicalOfCanonical | src/Commands/CctCommand.cs:221-228 | the filter leaves a text without layout characters unchanged and is idempotent |
| CctDocument.FormatCctXmlProperties | src/Commands/CctCommand.cs:221-228 | the output has no layout character at any position; splitting the input splits the output; a single character is kept exactly when it is not a layout character (so every other character is kept in order); applying it twice equals applying it once |
| CctCommand.InitialisationShape | src/Commands/CctCommand.cs:307-395 | the Initialisation request is an authenticated "CCT"/"OZHNN" order with empty order parameters and the security medium; its segments are the segmentation of base64(AES(Compress(UTF-8(canonical document)))), its NumSegments is their count, its signature data is the user signature document protected under the transaction key, and that same key is RSA-wrapped into TransactionKey |
| CctCommand.OrderSignature | src/Commands/CctCommand.cs:230-250 | the OrderSignatureData of the user (partner, user, keys) whose signature value is over the UTF-8 bytes of the document XML with exactly its layout characters removed |
| CctCommand.InitialisationFor | src/Commands/CctCommand.cs:307-391 | an authenticated Initialisation request for "CCT"/"OZHNN" whose segments are the segmentation of the protected canonical document and whose NumSegments is their count; InitialisationShape states the remaining fields |
| CctCommand.SignedTextIsUploadedText | src/Commands/CctCommand.cs:230-322 | the signed bytes and the uploaded plaintext are the UTF-8 encoding of one and the same text: the document XML with exactly its layout characters removed |
| CctCommand.CreateUploadRequests | src/Commands/CctCommand.cs:252-297 | exactly one authenticated Transfer request per segment; request i has SegmentNumber i+1, the captured transaction id, segment i unchanged as order data, and LastSegment exactly when it is the final one |
| CctCommand.UploadCarriesPayload | src/Commands/CctCommand.cs:258-285 | the requests' order data are the stored segments in order, so when the segments concatenate to their input they concatenate to the protected canonical document |
| CctCommand.OnlyFinalRequestIsLast | src/Commands/CctCommand.cs:274 | LastSegment is true on the final request and on no other |
| CctCommand.CctCommand.constructor | src/Commands/CctCommand.cs:50-54 | the transaction key is fixed once at construction; nothing is stored yet |
| CctCommand.CctCommand.Descriptor | src/Commands/CctCommand.cs:34-36 | order type "CCT", attribute "OZHNN", direction Upload |
| CctCommand.CctCommand.CreateInitRequest | src/Commands/CctCommand.cs:299-402 | an invalid amount gives the invalid-amount error; otherwise the Initialisation request and segments built from the document CctDocumentOf describes, under the command's own transaction key |
| CctCommand.CctCommand.InitRequest | src/Commands/CctCommand.cs:39-46 | on success stores the new request and its segments and returns the request; on failure stores nothing; the declared segment count always matches the stored segments |
| CctCommand.CctCommand.Requests | src/Commands/CctCommand.cs:37 | with no stored segments an error; otherwise one Transfer request per stored segment, in order, numbered from 1, carrying that segment, only the last flagged |
| CctCommand.CctCommand.ReceiptRequest | src/Commands/CctCommand.cs:48 | there is no Receipt request (null) |
| CctCommand.CctCommand.Deserialize | src/Commands/CctCommand.cs:56-86 | the response is returned; the transaction id is replaced only by a non-error, non-recovery Initialisation response; nothing else changes |
| CctCommand.CctCommand.UploadMatchesDeclaredCount | src/Commands/CctCommand.cs:37-46 | once an Initialisation request is stored, Requests sends exactly the number of Transfer requests it declared, the last one flagged |
| SprCommand.Descriptor | src/Commands/SprCommand.cs:29-31 | order type "SPR", attribute "UZHNN", direction Upload |
| SprCommand.Requests | src/Commands/SprCommand.cs:32 | there are no Transfer requests (null) |
| SprCommand.ReceiptRequest | src/Commands/SprCommand.cs:34 | there is no Receipt request (null) |
| SprCommand.InitRequest | src/Commands/SprCommand.cs:42-144 | an authenticated Initialisation request for "SPR"/"UZHNN" with empty order parameters, NumSegments 0, no security medium, and signature data but no order data |
| SprCommand.PayloadUsesOneKey | src/Commands/SprCommand.cs:48-120 | the signature value is over the single byte 0x20; the signature data is base64(AES(Compress(...))) under the key, and the same key is RSA-wrapped into TransactionKey; neither depends on nonce or timestamp |
| SprCommand.OneRoundTrip | src/Commands/SprCommand.cs:32-34 | the transaction is one exchange |
| IniCommand.Descriptor | src/Commands/IniCommand.cs:27-29 | order type "INI", attribute "DZNNN", direction Upload |
| IniCommand.InitRequest | src/Commands/IniCommand.cs:31 | there is no Initialisation request (null) |
| IniCommand.ReceiptRequest | src/Commands/IniCommand.cs:32 | there is no Receipt request (null) |
| IniCommand.CreateRequests | src/Commands/IniCommand.cs:34-102 | exactly one ebicsUnsecuredRequest, not authenticated, with no nonce, timestamp, transaction id or phase, the user and security medium, "INI"/"DZNNN" without order parameters, and base64(Compress(key document)) as order data with no encryption info or signature |
| IniCommand.OrderDataIsUnencrypted | src/Commands/IniCommand.cs:51-54 | undoing base64 and compression alone recovers the UTF-8 key document; no key is involved |
| IniCommand.OneRoundTrip | src/Commands/IniCommand.cs:30-32 | the transaction is one exchange |

## Left out

- Cryptography and compression are parameters of the model, as are UTF-8, base64, signing, the transaction key, nonces and the clock. Their code is not part of this model, and the model states only the order in which the commands compose them.
- Response parsing is not modelled. `base.Deserialize`, `XDocument.Parse` and `DecryptOrderData` are replaced by the parsed response record and the decrypted order data, which are both inputs. XML parse failures are therefore not modelled.
- Segmentation is a parameter. Where a property needs the segments to concatenate back to their input, that is a precondition of the lemma.
- XML serialisation, namespaces, version and revision fields, the bank key digests and the authentication signature are not modelled. Requests are records of the fields the commands set, plus an `authenticated` flag.
- Exceptions become results. The rethrow-versus-wrap distinction for EbicsException is collapsed: every deserialization fault is a DeserializationError and every request fault a CreateRequestError.
- CctCommand.CreateInitRequest: the model only handles the invalid-amount failure. Other faults thrown by the unseen collaborators are not modelled.
- CctDocument.CreateCctDoc: amounts are exact reals, parsed by a parameter. The "F2" two-decimal rendering and its rounding are library behaviour and are not modelled. Decimal and int overflow are not modelled either.
- StartEndDateOrderParams.FormatDate: the rendering assumes a Gregorian current culture. The source formats without an explicit culture, and other calendars are not modelled.
- StaCommand.StaCommand.CreateRequests: segment numbers and counts are unbounded integers. The source adds them as 32-bit `int` without overflow checks, and the model does not capture the wrap-around when a bank sends values near the int limit. The same holds for the `SegmentNumber - 1` index in Deserialize.
- Logging is left out.
- Response signature verification is left out, because the source has none, only a comment.
- CctCommand.CctCommand.Deserialize: it always returns the response, because the base-class failures it would wrap are not modelled.
- The parameter classes, response classes and key types are represented only by the fields the commands read.
