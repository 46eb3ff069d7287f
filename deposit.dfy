/** The deposit flow page (src/comps/Deposit.tsx): its four steps, the form's
    initial values and the step restored from the URL, the URL written once a
    deposit is confirmed, the hand-off to reclaim when a deposit fails, and
    the bounds on the amount. */
module Deposit {
  import opened Wrappers
  import opened Js
  import opened SearchParams

  /** `DEPOSIT_STEP` */
  datatype DepositStep = Amount | Address | Confirm | Review

  /** The number TypeScript gives each member of the enum. */
  function StepNumber(s: DepositStep): (n: int)
    ensures 0 <= n <= 3
  {
    match s
    case Amount => 0
    case Address => 1
    case Confirm => 2
    case Review => 3
  }

  /** The member with a given number, if any. */
  function StepOf(n: int): (s: Option<DepositStep>)
    ensures s.Some? <==> 0 <= n <= 3
    ensures s.Some? ==> StepNumber(s.value) == n
  {
    if n == 0 then Some(Amount)
    else if n == 1 then Some(Address)
    else if n == 2 then Some(Confirm)
    else if n == 3 then Some(Review)
    else None
  }

  /** The numbering is AMOUNT=0, ADDRESS=1, CONFIRM=2, REVIEW=3 and one-to-one. */
  lemma StepNumbering(s: DepositStep)
    ensures StepOf(StepNumber(s)) == Some(s)
    ensures StepNumber(Amount) == 0 && StepNumber(Address) == 1
    ensures StepNumber(Confirm) == 2 && StepNumber(Review) == 3
  {
  }

  const StepKey: string := "step"
  const TxIdKey: string := "txId"
  const AmountKey: string := "amount"
  const StxAddressKey: string := "stxAddress"

  /** The deposit form's fields; either may be missing. */
  datatype FormValues = FormValues(amount: Option<string>, stxAddress: Option<string>)

  /** `initialValues`: empty unless the URL carries a truthy `step`; then the
      amount and address come from the URL, "" when missing. */
  function InitialValues(query: Entries): (v: FormValues)
    ensures v.amount.Some? && v.stxAddress.Some?
    ensures !Truthy(NumberOf(Get(query, StepKey))) ==> v == FormValues(Some(""), Some(""))
    ensures Truthy(NumberOf(Get(query, StepKey))) ==>
              v == FormValues(Some(Get(query, AmountKey).GetOr("")), Some(Get(query, StxAddressKey).GetOr("")))
  {
    if !Truthy(NumberOf(Get(query, StepKey))) then FormValues(Some(""), Some(""))
    else FormValues(Some(Get(query, AmountKey).GetOr("")), Some(Get(query, StxAddressKey).GetOr("")))
  }

  /** A missing, zero or non-numeric `step` gives empty initial values. */
  lemma InitialValuesWithoutStep(query: Entries)
    requires !HasName(query, StepKey) || Get(query, StepKey) == Some("0") ||
             (Get(query, StepKey).Some? && exists k :: 0 <= k < |Get(query, StepKey).value| && !IsDigit(Get(query, StepKey).value[k]))
    ensures InitialValues(query) == FormValues(Some(""), Some(""))
  {
  }

  /** `TransactionInfo` handed up by the confirm step. */
  datatype TransactionInfo = TransactionInfo(hex: string, txId: string)

  /** The status the deposit-status hook reports. */
  datatype DepositStatus = Pending | Accepted | Confirmed | Failed

  /** A `router.push`: either the current path with a query, recorded as the
      pairs whose `toString` follows the `?`, or a literal URL. */
  datatype Navigation = PushQuery(pathname: string, query: Entries) | PushUrl(url: string)

  /** `String(values.stxAddress)`: an absent address is written "undefined". */
  function JsString(v: Option<string>): (s: string)
    ensures v.Some? ==> s == v.value
    ensures v.None? ==> s == "undefined"
  {
    match v
    case Some(x) => x
    case None => "undefined"
  }

  /** The query `handleUpdatingTransactionInfo` writes: txId, step=3,
      stxAddress and amount, in that order. */
  function ConfirmedQuery(txId: string, values: FormValues): (q: Entries)
    ensures |q| == 4
    ensures q[0] == (TxIdKey, txId) && q[1] == (StepKey, NatToString(StepNumber(Review)))
    ensures q[2] == (StxAddressKey, JsString(values.stxAddress)) && q[3] == (AmountKey, values.amount.GetOr(""))
  {
    [(TxIdKey, txId), (StepKey, NatToString(StepNumber(Review))),
     (StxAddressKey, JsString(values.stxAddress)), (AmountKey, values.amount.GetOr(""))]
  }

  const ReclaimPrefix: string := "/reclaim?depositTxId="

  /** What a step shows. */
  datatype StepView =
    | AmountView
    | AddressView
    | ConfirmView
    | ReviewView(amount: int, stxAddress: string, txId: string)
    | SomethingWentWrong

  /** `renderStep`: one view per step; any other number is an error view. */
  function RenderStep(step: int, btcAmount: int, recipient: string, txId: string): (v: StepView)
    ensures v == SomethingWentWrong <==> StepOf(step).None?
    ensures step == 0 <==> v == AmountView
    ensures step == 1 <==> v == AddressView
    ensures step == 2 <==> v == ConfirmView
    ensures step == 3 <==> v.ReviewView?
    ensures v.ReviewView? ==> v == ReviewView(btcAmount, recipient, txId)
  {
    if step == 0 then AmountView
    else if step == 1 then AddressView
    else if step == 2 then ConfirmView
    else if step == 3 then ReviewView(btcAmount, recipient, txId)
    else SomethingWentWrong
  }

  /** An output of the Bitcoin transaction the status response describes. */
  datatype TxOutput = TxOutput(value: int)

  datatype StatusResponse = StatusResponse(vout: seq<TxOutput>)

  /** `btcAmount`: the value of the first output, 0 without a response. A
      response without outputs makes the expression throw. */
  function BtcAmount(response: Option<StatusResponse>): (r: Result<int>)
    ensures response.None? ==> r == Ok(0)
    ensures response.Some? && |response.value.vout| > 0 ==> r == Ok(response.value.vout[0].value)
    ensures r.Err? <==> response.Some? && |response.value.vout| == 0
  {
    match response
    case None => Ok(0)
    case Some(s) =>
      if |s.vout| == 0 then Err("TypeError: Cannot read properties of undefined (reading 'value')")
      else Ok(s.vout[0].value)
  }

  const SatsPerBtc: real := 100000000.0

  /** The verdict of the amount field's schema. */
  datatype AmountVerdict =
    | AmountOk
    | AmountRequired
    | BelowMinimum(minimum: real)      // "Minimum deposit amount is <min> BTC"
    | OverBalance(balance: real)       // "The deposit amount exceeds your current balance of <balance> BTC"
    | OverCap(cap: real)               // "Current deposit cap is <cap> BTC"

  function Min(a: real, b: real): real {
    if a <= b then a else b
  }

  /** The amount schema: at least the per-deposit minimum, at most the smaller
      of the balance and the cap (both given in satoshis and converted to
      BTC); the over-limit message names the balance when it is below the cap.
      The minimum is checked first. */
  function CheckAmount(amount: Option<real>, btcBalance: real, currentCap: int, perDepositMinimum: int): (v: AmountVerdict)
    ensures v == AmountRequired <==> amount.None?
    ensures v.BelowMinimum? ==> v.minimum == perDepositMinimum as real / SatsPerBtc
    ensures v.OverBalance? ==> v.balance == btcBalance
    ensures v.OverCap? ==> v.cap == currentCap as real / SatsPerBtc
  {
    var maxDeposit := currentCap as real / SatsPerBtc;
    var minDeposit := perDepositMinimum as real / SatsPerBtc;
    match amount
    case None => AmountRequired
    case Some(a) =>
      if a < minDeposit then BelowMinimum(minDeposit)
      else if a > Min(btcBalance, maxDeposit) then
        (if btcBalance < maxDeposit then OverBalance(btcBalance) else OverCap(maxDeposit))
      else AmountOk
  }

  /** An amount passes exactly when it lies between the minimum and the
      smaller of balance and cap; a rejection above the limit names the
      balance iff the balance is below the cap. */
  lemma CheckAmountBounds(amount: real, btcBalance: real, currentCap: int, perDepositMinimum: int)
    ensures var v := CheckAmount(Some(amount), btcBalance, currentCap, perDepositMinimum);
            var maxDeposit := currentCap as real / SatsPerBtc;
            var minDeposit := perDepositMinimum as real / SatsPerBtc;
            && (v == AmountOk <==> minDeposit <= amount && amount <= btcBalance && amount <= maxDeposit)
            && (v.OverBalance? ==> btcBalance < maxDeposit && amount > btcBalance && v.balance == btcBalance)
            && (v.OverCap? ==> maxDeposit <= btcBalance && amount > maxDeposit && v.cap == maxDeposit)
            && (v.BelowMinimum? <==> amount < minDeposit)
            && (minDeposit <= amount && (amount > btcBalance || amount > maxDeposit) ==>
                  (btcBalance < maxDeposit ==> v == OverBalance(btcBalance)) &&
                  (maxDeposit <= btcBalance ==> v == OverCap(maxDeposit)))
  {
  }

  /** The state of the deposit page: the current step, the deposit's txid,
      and the navigations it has asked the router for. */
  class DepositFlow {
    const pathname: string
    var step: DepositStep
    var txId: string
    var navigations: seq<Navigation>

    constructor (pathname: string)
      ensures this.pathname == pathname && step == Amount && txId == "" && navigations == []
    {
      this.pathname := pathname;
      step := Amount;
      txId := "";
      navigations := [];
    }

    /** `setStep` */
    method SetStep(newStep: DepositStep)
      modifies this`step
      ensures step == newStep
    {
      step := newStep;
    }

    /** The effect run when the URL's query changes: a falsy `step` goes back
      to AMOUNT; step 3 restores REVIEW with the URL's txId ("" when missing);
      any other step leaves the state as it is. */
    method SearchParamsEffect(query: Entries)
      modifies this`step, this`txId
      ensures var n := NumberOf(Get(query, StepKey));
        && (!Truthy(n) ==> step == Amount && txId == old(txId))
        && (n == Int(StepNumber(Review)) ==> step == Review && txId == Get(query, TxIdKey).GetOr(""))
        && (Truthy(n) && n != Int(StepNumber(Review)) ==> step == old(step) && txId == old(txId))
    {
      var currentStep := NumberOf(Get(query, StepKey));
      if !Truthy(currentStep) {
        step := Amount;
      }
      if currentStep == Int(StepNumber(Review)) {
        step := Review;
        txId := Get(query, TxIdKey).GetOr("");
      }
    }

    /** `handleUpdatingTransactionInfo`: records the txid and pushes the
      confirmed query onto the current path. */
    method HandleUpdatingTransactionInfo(info: TransactionInfo, values: FormValues)
      modifies this`txId, this`navigations
      ensures txId == info.txId
      ensures navigations == old(navigations) + [PushQuery(pathname, ConfirmedQuery(info.txId, values))]
    {
      txId := info.txId;
      var stepText := NatToString(StepNumber(Review));
      var address := JsString(values.stxAddress);
      var amount := values.amount.GetOr("");
      var params := new UrlSearchParams();
      params.Set(TxIdKey, info.txId);
      SetParamFresh([], TxIdKey, info.txId);
      assert params.entries == [(TxIdKey, info.txId)];
      params.Set(StepKey, stepText);
      SetParamFresh([(TxIdKey, info.txId)], StepKey, stepText);
      assert params.entries == [(TxIdKey, info.txId), (StepKey, stepText)];
      params.Set(StxAddressKey, address);
      SetParamFresh([(TxIdKey, info.txId), (StepKey, stepText)], StxAddressKey, address);
      var e3 := [(TxIdKey, info.txId), (StepKey, stepText), (StxAddressKey, address)];
      assert params.entries == e3;
      assert !HasName(e3, AmountKey) by {
        assert e3[0].0 != AmountKey && e3[1].0 != AmountKey && e3[2].0 != AmountKey;
      }
      params.Set(AmountKey, amount);
      SetParamFresh(e3, AmountKey, amount);
      assert params.entries == ConfirmedQuery(info.txId, values);
      navigations := navigations + [PushQuery(pathname, params.entries)];
    }

    /** The effect on a status change: a failed deposit with a known txid
      sends the user to the reclaim page for it. */
    method StatusEffect(status: DepositStatus)
      modifies this`navigations
      ensures status == Failed && txId != "" ==> navigations == old(navigations) + [PushUrl(ReclaimPrefix + txId)]
      ensures !(status == Failed && txId != "") ==> navigations == old(navigations)
    {
      if status == Failed && txId != "" {
        navigations := navigations + [PushUrl(ReclaimPrefix + txId)];
      }
    }
  }

  /** Reading back the query written after a confirmation restores the review
      step with the same txid and the same form values (an absent amount
      comes back as ""). */
  lemma ConfirmedQueryRestores(txId: string, values: FormValues)
    requires values.stxAddress.Some?
    ensures var q := ConfirmedQuery(txId, values);
            && NumberOf(Get(q, StepKey)) == Int(StepNumber(Review))
            && Get(q, TxIdKey) == Some(txId)
            && InitialValues(q) == FormValues(Some(values.amount.GetOr("")), values.stxAddress)
  {
    var q := ConfirmedQuery(txId, values);
    NumberOfNatToString(StepNumber(Review));
    assert Get(q, StepKey) == Some(NatToString(StepNumber(Review)));
    assert Truthy(NumberOf(Get(q, StepKey)));
    assert q[1..][1..] == q[2..] && q[2..][1..] == q[3..];
    assert Get(q, StxAddressKey) == Get(q[2..], StxAddressKey) == values.stxAddress;
    assert Get(q, AmountKey) == Get(q[1..], AmountKey) == Get(q[2..], AmountKey) == Get(q[3..], AmountKey) == Some(values.amount.GetOr(""));
  }
}
