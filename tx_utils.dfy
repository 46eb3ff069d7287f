/** The bridge indexer's (Emily's) deposit record and the status query the
    client sends for it (src/util/tx-utils.ts). */
module TxUtils {
  import opened Wrappers
  import opened SearchParams

  datatype Parameters = Parameters(maxFee: int, lockTime: int)

  /** Proof that a deposit was minted: the Stacks transaction and the Bitcoin
      block that confirmed the deposit. */
  datatype Fulfillment = Fulfillment(
    bitcoinTxid: string,
    bitcoinTxIndex: int,
    stacksTxid: string,
    bitcoinBlockHash: string,
    bitcoinBlockHeight: int,
    btcFee: int)

  /** The status tag; only a confirmed record carries a fulfillment. */
  datatype EmilyStatus = Pending | Accepted | Confirmed(fulfillment: Fulfillment)

  /** `EmilyTxRes`: the fields every record has, and its status. */
  datatype EmilyTx = EmilyTx(
    bitcoinTxid: string,
    bitcoinTxOutputIndex: int,
    recipient: string,
    amount: int,
    lastUpdateHeight: int,
    lastUpdateBlockHash: string,
    statusMessage: string,
    parameters: Parameters,
    reclaimScript: string,
    depositScript: string,
    status: EmilyStatus)

  /** The `status` string of the record. */
  function StatusTag(s: EmilyStatus): (tag: string)
    ensures tag in {"pending", "accepted", "confirmed"}
  {
    match s
    case Pending => "pending"
    case Accepted => "accepted"
    case Confirmed(_) => "confirmed"
  }

  /** The `fulfillment` field, present exactly on confirmed records. */
  function FulfillmentOf(tx: EmilyTx): (r: Option<Fulfillment>)
    ensures r.Some? <==> tx.status.Confirmed?
    ensures r.Some? ==> r.value == tx.status.fulfillment
  {
    if tx.status.Confirmed? then Some(tx.status.fulfillment) else None
  }

  /** Reads a status back from its tag and the optional fulfillment field;
      a shape outside the union is rejected. */
  function StatusFromFields(tag: string, fulfillment: Option<Fulfillment>): (r: Option<EmilyStatus>)
  {
    if tag == "pending" && fulfillment.None? then Some(Pending)
    else if tag == "accepted" && fulfillment.None? then Some(Accepted)
    else if tag == "confirmed" && fulfillment.Some? then Some(Confirmed(fulfillment.value))
    else None
  }

  /** The tag and the fulfillment field together determine the status: each
      record's fields read back as its status, and a confirmed tag without a
      fulfillment (or any other tag with one) is no record's. */
  lemma StatusRoundTrip(tx: EmilyTx, tag: string, f: Option<Fulfillment>)
    ensures StatusFromFields(StatusTag(tx.status), FulfillmentOf(tx)) == Some(tx.status)
    ensures StatusFromFields(tag, f).Some? <==>
              (tag == "confirmed" && f.Some?) || (tag in {"pending", "accepted"} && f.None?)
  {
  }

  /** The query of `getEmilyDepositInfo`: txid first, then output index 0. */
  const TxidName: string := "bitcoinTxid"
  const VoutName: string := "vout"
  const FirstOutput: string := "0"

  function EmilyDepositQuery(txId: string): (q: Entries)
    ensures |q| == 2 && q[0] == (TxidName, txId) && q[1] == (VoutName, FirstOutput)
    ensures Get(q, TxidName) == Some(txId) && Get(q, VoutName) == Some(FirstOutput)
  {
    AppendParam(AppendParam([], TxidName, txId), VoutName, FirstOutput)
  }

  datatype Request = Request(httpMethod: string, url: string, contentType: string)

  const EmilyDepositPath: string := "/api/emilyDeposit"

  /** The request `getEmilyDepositInfo` sends. */
  function EmilyDepositRequest(txId: string): (r: Request)
    ensures r.httpMethod == "GET" && r.contentType == "application/json"
    ensures r.url == EmilyDepositPath + "?" + Serialize(EmilyDepositQuery(txId))
  {
    Request("GET", EmilyDepositPath + "?" + Serialize(EmilyDepositQuery(txId)), "application/json")
  }

  /** `getEmilyDepositInfo` up to the fetch: a fresh `URLSearchParams`, the
      two appends, and the request on the serialized query. */
  method GetEmilyDepositInfo(txId: string) returns (r: Request)
    ensures r == EmilyDepositRequest(txId)
  {
    var searchParams := new UrlSearchParams();
    searchParams.Append(TxidName, txId);
    searchParams.Append(VoutName, FirstOutput);
    r := Request("GET", EmilyDepositPath + "?" + Serialize(searchParams.entries), "application/json");
  }

  /** For a txid of letters and digits (a hex txid) the URL is
      `/api/emilyDeposit?bitcoinTxid=<txId>&vout=0`. */
  lemma EmilyDepositUrl(txId: string)
    requires forall k :: 0 <= k < |txId| ==> Unreserved(txId[k])
    ensures EmilyDepositRequest(txId).url ==
            EmilyDepositPath + "?" + (TxidName + "=" + txId + "&" + VoutName + "=" + FirstOutput)
  {
    assert EmilyDepositQuery(txId) == [(TxidName, txId), (VoutName, FirstOutput)];
    TxidNameUnreserved();
    VoutNameUnreserved();
    FirstOutputUnreserved();
    SerializeTwoPairs(TxidName, txId, VoutName, FirstOutput);
  }

  lemma TxidNameUnreserved()
    ensures FormEncode(TxidName) == TxidName
  {
    assert forall k :: 0 <= k < |TxidName| ==> Unreserved(TxidName[k]);
  }

  lemma VoutNameUnreserved()
    ensures FormEncode(VoutName) == VoutName
  {
    assert forall k :: 0 <= k < |VoutName| ==> Unreserved(VoutName[k]);
  }

  lemma FirstOutputUnreserved()
    ensures FormEncode(FirstOutput) == FirstOutput
  {
    assert forall k :: 0 <= k < |FirstOutput| ==> Unreserved(FirstOutput[k]);
  }

  lemma SerializeTwoPairs(a: string, b: string, c: string, d: string)
    requires FormEncode(a) == a && FormEncode(b) == b && FormEncode(c) == c && FormEncode(d) == d
    ensures Serialize([(a, b), (c, d)]) == a + "=" + b + "&" + c + "=" + d
  {
    var q := [(a, b), (c, d)];
    assert q[1..] == [(c, d)];
  }
}
