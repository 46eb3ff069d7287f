/** The confirm step of the deposit flow
    (src/comps/reskin/deposit/confirm-deposit.tsx): the check that Emily is in
    sync with the Stacks chain, and the CONFIRM TRANSACTION handler, which
    builds the deposit, has the selected wallet send it, tells Emily about it
    and moves the flow to its review step. Every network call, wallet call and
    script or address builder is an input. */
module ConfirmDeposit {
  import opened Wrappers
  import opened Js
  import opened Hex
  import opened Atoms
  import opened Deposit

  /** The Stacks API whose chain tip is compared with Emily's. */
  datatype StacksRpc = MainnetRpc | TestnetRpc | DevnetRpc

  /** devnet and testnet have their own API; every other network uses mainnet's. */
  function RpcFor(network: string): (r: StacksRpc)
    ensures r == DevnetRpc <==> network == "devnet"
    ensures r == TestnetRpc <==> network == "testnet"
    ensures r == MainnetRpc <==> network != "devnet" && network != "testnet"
  {
    if network == "devnet" then DevnetRpc
    else if network == "testnet" then TestnetRpc
    else MainnetRpc
  }

  /** How the sync `queryFn` ends: an exception (caught, no value), equal
      chain tips, or different ones. */
  datatype SyncOutcome = SyncThrew | InSync | OutOfSync

  const OutOfSyncMessage: string := "Emily is out of sync with the network. Please try again later"

  /** The sync check on the Stacks tip height (`chain_tip.block_height`) and
      Emily's `stacksBlockHeight`; either is absent when its answer lacks the
      field, and the two are compared with `!==`, so two absent heights are
      equal. A failed Stacks request (or a missing `chain_tip`) means Emily is
      never asked. */
  function SyncCheck(stacksTip: Result<Option<int>>, emilyTip: Result<Option<int>>): (o: SyncOutcome)
    ensures o == InSync <==> stacksTip.Ok? && emilyTip == Ok(stacksTip.value)
    ensures o == SyncThrew <==> stacksTip.Err? || emilyTip.Err?
    ensures o == OutOfSync <==> stacksTip.Ok? && emilyTip.Ok? && emilyTip.value != stacksTip.value
  {
    match stacksTip
    case Err(_) => SyncThrew
    case Ok(tip) =>
      match emilyTip
      case Err(_) => SyncThrew
      case Ok(emily) => if tip != emily then OutOfSync else InSync
  }

  /** The notification the sync check shows: only on a mismatch. */
  function SyncNotice(o: SyncOutcome): (n: Option<Notification>)
    ensures n.Some? <==> o == OutOfSync
    ensures n.Some? ==> n.value == Notification(ErrorNotice, OutOfSyncMessage)
  {
    if o == OutOfSync then Some(Notification(ErrorNotice, OutOfSyncMessage)) else None
  }

  /** Whether the query runs at all: `enabled: !!emilyUrl`. */
  predicate SyncEnabled(emilyUrl: Option<string>) {
    emilyUrl.Some? && emilyUrl.value != ""
  }

  /** The query's `data`: nothing while the query is disabled (no Emily URL)
      or after an exception, otherwise whether the tips agree. */
  function SyncData(emilyUrl: Option<string>, stacksTip: Result<Option<int>>, emilyTip: Result<Option<int>>): (d: Option<bool>)
    ensures d.None? <==> !SyncEnabled(emilyUrl) || stacksTip.Err? || emilyTip.Err?
    ensures d == Some(true) <==> SyncEnabled(emilyUrl) && stacksTip.Ok? && emilyTip == Ok(stacksTip.value)
    ensures d == Some(false) <==>
              SyncEnabled(emilyUrl) && stacksTip.Ok? && emilyTip.Ok? && emilyTip.value != stacksTip.value
  {
    if !SyncEnabled(emilyUrl) then None
    else
      match SyncCheck(stacksTip, emilyTip)
      case SyncThrew => None
      case InSync => Some(true)
      case OutOfSync => Some(false)
  }

  /** The confirm button is rendered for a truthy `data`; otherwise the page
      shows EMILY IS OUT OF SYNC. */
  predicate ConfirmButtonShown(d: Option<bool>) {
    d == Some(true)
  }

  /** Confirmation is offered exactly when an Emily URL is configured, both
      requests succeed and the two heights are equal, both present or both
      absent. */
  lemma ConfirmShownIffInSync(emilyUrl: Option<string>, stacksTip: Result<Option<int>>, emilyTip: Result<Option<int>>)
    ensures ConfirmButtonShown(SyncData(emilyUrl, stacksTip, emilyTip)) <==>
              && emilyUrl.Some? && emilyUrl.value != ""
              && stacksTip.Ok? && emilyTip == Ok(stacksTip.value)
    ensures emilyUrl.Some? && emilyUrl.value != "" && stacksTip.Ok? && emilyTip.Ok? && emilyTip != Ok(stacksTip.value) ==>
              SyncData(emilyUrl, stacksTip, emilyTip) == Some(false)
  {
  }

  /** The check fails open: when neither answer carries a height, the tips
      compare equal and the confirm button is shown, with no notification;
      a height on one side only is a mismatch. */
  lemma AbsentHeightsPassSync(emilyUrl: string, height: int)
    requires emilyUrl != ""
    ensures SyncCheck(Ok(None), Ok(None)) == InSync
    ensures ConfirmButtonShown(SyncData(Some(emilyUrl), Ok(None), Ok(None)))
    ensures SyncNotice(SyncCheck(Ok(None), Ok(None))).None?
    ensures SyncData(Some(emilyUrl), Ok(Some(height)), Ok(None)) == Some(false)
    ensures SyncData(Some(emilyUrl), Ok(None), Ok(Some(height))) == Some(false)
  {
  }

  /** The bridge settings the handler reads. */
  datatype BridgeConfig = BridgeConfig(walletNetwork: Option<string>, reclaimLockTime: Option<string>)

  const DefaultLockTime: string := "144"

  /** `parseInt(lockTime || "144")`: an absent or empty setting means 144. */
  function LockTimeOf(setting: Option<string>): (r: Num)
    ensures setting.Some? && setting.value != "" ==> r == ParseInt(setting.value)
    ensures setting.None? || setting == Some("") ==> r == Int(144)
  {
    assert NatToString(144) == DefaultLockTime;
    ParseIntNatToString(144);
    if setting.None? || setting.value == "" then ParseInt(DefaultLockTime) else ParseInt(setting.value)
  }

  /** The public keys of the musig users, in order. */
  function UserKeys(users: seq<MusigUser>): (keys: seq<string>)
    ensures |keys| == |users|
    ensures forall i :: 0 <= i < |users| ==> keys[i] == users[i].publicKey
  {
    seq(|users|, i requires 0 <= i < |users| => users[i].publicKey)
  }

  const NoPaymentMessage: string := "Cannot read properties of null (reading 'publicKey')"
  const NoMusigMessage: string := "Cannot destructure property 'threshold' of null"

  /** The keys that may reclaim the deposit and how many of them must sign:
      the payment key alone, or for Asigna the musig users' keys with the
      musig threshold. The payment address is read first, for every wallet. */
  function ReclaimSelection(w: WalletInfo): (r: Result<(seq<string>, int)>)
    ensures r.Err? <==> w.addresses.payment.None? || (w.selectedWallet == Some(Asigna) && w.addresses.musig.None?)
    ensures r.Ok? && w.selectedWallet != Some(Asigna) ==> r.value == ([w.addresses.payment.value.publicKey], 1)
    ensures r.Ok? && w.selectedWallet == Some(Asigna) ==>
              var m := w.addresses.musig.value;
              && r.value.1 == m.threshold && |r.value.0| == |m.users|
              && forall i :: 0 <= i < |m.users| ==> r.value.0[i] == m.users[i].publicKey
  {
    if w.addresses.payment.None? then Err(NoPaymentMessage)
    else if w.selectedWallet != Some(Asigna) then Ok(([w.addresses.payment.value.publicKey], 1))
    else if w.addresses.musig.None? then Err(NoMusigMessage)
    else Ok((UserKeys(w.addresses.musig.value.users), w.addresses.musig.value.threshold))
  }

  /** `.slice(2)`: the aggregate key without its leading two characters. */
  function DropTwo(s: string): (r: string)
    ensures |s| >= 2 ==> s == s[..2] + r
    ensures |s| < 2 ==> r == ""
  {
    if |s| >= 2 then s[2..] else ""
  }

  /** The library calls the handler makes, none of which is modelled:
      `serializeCVBytes(principalCV(_))`, `hexToBytes`, and the reclaim
      script, deposit script and deposit address builders. */
  datatype Builders = Builders(
    serializePrincipal: Option<string> -> Result<seq<Byte>>,
    hexToBytes: string -> seq<Byte>,
    reclaimScript: (Num, seq<string>, int) -> seq<Byte>,
    depositScript: (seq<Byte>, int, seq<Byte>) -> seq<Byte>,
    depositAddress: (seq<Byte>, string, int, Num, Option<string>, seq<string>, int) -> string)

  /** What the handler has computed when it reaches the send. */
  datatype DepositPlan = DepositPlan(
    keys: seq<string>,
    threshold: int,
    lockTime: Num,
    reclaimScriptHex: string,
    depositScriptHex: string,
    recipient: string)

  /** Everything before the send: the aggregate key (fetched), the serialized
      recipient, the reclaim selection, the lock time, both scripts in hex and
      the deposit address. The first failure is the error. */
  function PlanOf(b: Builders, cfg: BridgeConfig, maxFee: int, w: WalletInfo, values: FormValues,
                  aggregateKey: Result<string>): (r: Result<DepositPlan>)
    ensures r.Ok? <==> aggregateKey.Ok? && b.serializePrincipal(values.stxAddress).Ok? && ReclaimSelection(w).Ok?
    ensures r.Ok? ==>
              && (r.value.keys, r.value.threshold) == ReclaimSelection(w).value
              && r.value.lockTime == LockTimeOf(cfg.reclaimLockTime)
              && ParseHex(r.value.reclaimScriptHex) == Some(b.reclaimScript(r.value.lockTime, r.value.keys, r.value.threshold))
              && ParseHex(r.value.depositScriptHex) ==
                   Some(b.depositScript(b.hexToBytes(DropTwo(aggregateKey.value)), maxFee, b.serializePrincipal(values.stxAddress).value))
              && r.value.recipient ==
                   b.depositAddress(b.serializePrincipal(values.stxAddress).value, DropTwo(aggregateKey.value), maxFee,
                                    r.value.lockTime, cfg.walletNetwork, r.value.keys, r.value.threshold)
  {
    match aggregateKey
    case Err(e) => Err(e)
    case Ok(key) =>
      var signer := DropTwo(key);
      match b.serializePrincipal(values.stxAddress)
      case Err(e) => Err(e)
      case Ok(address) =>
        match ReclaimSelection(w)
        case Err(e) => Err(e)
        case Ok(selection) =>
          var lockTime := LockTimeOf(cfg.reclaimLockTime);
          var reclaim := b.reclaimScript(lockTime, selection.0, selection.1);
          var deposit := b.depositScript(b.hexToBytes(signer), maxFee, address);
          ParseBytesToHex(reclaim);
          ParseBytesToHex(deposit);
          Ok(DepositPlan(selection.0, selection.1, lockTime, BytesToHex(reclaim), BytesToHex(deposit),
                         b.depositAddress(address, signer, maxFee, lockTime, cfg.walletNetwork, selection.0, selection.1)))
  }

  const NotImplementedMessage: string := "Function not implemented."

  /** The txid the send step ends with: "" when no wallet is selected (no send
      is made), always the "not implemented" error for Asigna, and the
      wallet's own result otherwise. */
  function SentTxId(provider: Option<WalletProvider>, sent: Result<string>): (r: Result<string>)
    ensures provider.None? ==> r == Ok("")
    ensures provider == Some(Asigna) ==> r == Err(NotImplementedMessage)
    ensures provider.Some? && provider != Some(Asigna) ==> r == sent
  {
    match provider
    case None => Ok("")
    case Some(Asigna) => Err(NotImplementedMessage)
    case Some(_) => sent
  }

  /** The arguments every send receives. */
  datatype SendParams = SendParams(recipient: string, amountInSats: Option<string>, network: Option<string>)

  /** A call of the selected wallet's send function. */
  datatype SendCall = SendCall(provider: WalletProvider, params: SendParams)

  /** The sends the handler makes: one, to the selected wallet, once the plan
      is built; none without a wallet or a plan. */
  function SendCallsOf(plan: Result<DepositPlan>, provider: Option<WalletProvider>, values: FormValues,
                       cfg: BridgeConfig): (calls: seq<SendCall>)
    ensures |calls| <= 1
    ensures |calls| == 1 <==> plan.Ok? && provider.Some?
    ensures |calls| == 1 ==> calls[0] == SendCall(provider.value, SendParams(plan.value.recipient, values.amount, cfg.walletNetwork))
  {
    if plan.Ok? && provider.Some? then
      [SendCall(provider.value, SendParams(plan.value.recipient, values.amount, cfg.walletNetwork))]
    else []
  }

  /** The body of the request that tells Emily about the deposit. */
  datatype EmilyPayload = EmilyPayload(
    bitcoinTxid: string,
    bitcoinTxOutputIndex: int,
    reclaimScript: string,
    depositScript: string)

  /** How a press of CONFIRM TRANSACTION ends. */
  datatype NextClick =
    | Aborted(error: string)                          // thrown before the send
    | SendFailed(error: string)                       // the send threw
    | EmilyRejected(payload: EmilyPayload)            // Emily answered, not ok
    | EmilyThrew(payload: EmilyPayload, error: string)
    | Deposited(payload: EmilyPayload)

  function NextClickOf(plan: Result<DepositPlan>, provider: Option<WalletProvider>, sent: Result<string>,
                       emilyResponse: Result<bool>): (o: NextClick)
    ensures o.Aborted? <==> plan.Err?
    ensures o.Aborted? ==> o.error == plan.error
    ensures o.SendFailed? <==> plan.Ok? && SentTxId(provider, sent).Err?
    ensures o.SendFailed? ==> o.error == SentTxId(provider, sent).error
    ensures !o.Aborted? && !o.SendFailed? ==>
              o.payload == EmilyPayload(SentTxId(provider, sent).value, 0, plan.value.reclaimScriptHex, plan.value.depositScriptHex)
    ensures o.EmilyThrew? <==> plan.Ok? && SentTxId(provider, sent).Ok? && emilyResponse.Err?
    ensures o.EmilyRejected? <==> plan.Ok? && SentTxId(provider, sent).Ok? && emilyResponse == Ok(false)
  {
    match plan
    case Err(e) => Aborted(e)
    case Ok(p) =>
      match SentTxId(provider, sent)
      case Err(e) => SendFailed(e)
      case Ok(txId) =>
        var payload := EmilyPayload(txId, 0, p.reclaimScriptHex, p.depositScriptHex);
        match emilyResponse
        case Err(e) => EmilyThrew(payload, e)
        case Ok(ok) => if ok then Deposited(payload) else EmilyRejected(payload)
  }

  const DepositErrorPrefix: string := "Error while depositing funds: "
  const TransactionIssuePrefix: string := "Issue with Transaction "
  const EmilyIssueMessage: string := "Issue with Request to Emily"
  const RequestErrorMessage: string := "Error with the request"
  const DepositSuccessMessage: string := "Successful Deposit request"

  /** The notifications each ending shows, in order. */
  function NoticesOf(o: NextClick): (ns: seq<Notification>)
    ensures |ns| >= 1
    ensures ns[|ns| - 1].kind == SuccessNotice <==> o.Deposited?
  {
    match o
    case Aborted(e) => [Notification(ErrorNotice, DepositErrorPrefix + e)]
    case SendFailed(e) => [Notification(ErrorNotice, TransactionIssuePrefix + e)]
    case EmilyRejected(_) =>
      [Notification(ErrorNotice, EmilyIssueMessage), Notification(ErrorNotice, DepositErrorPrefix + RequestErrorMessage)]
    case EmilyThrew(_, e) => [Notification(ErrorNotice, DepositErrorPrefix + e)]
    case Deposited(_) => [Notification(SuccessNotice, DepositSuccessMessage)]
  }

  /** The requests made to Emily: one exactly when the send succeeded. */
  function EmilyRequestsOf(o: NextClick): (rs: seq<EmilyPayload>)
    ensures |rs| <= 1
    ensures |rs| == 1 <==> o.EmilyRejected? || o.EmilyThrew? || o.Deposited?
    ensures |rs| == 1 ==> rs[0] == o.payload
  {
    if o.EmilyRejected? || o.EmilyThrew? || o.Deposited? then [o.payload] else []
  }

  /** A call of one of the two callbacks the step receives from its parent,
      `setStep` and `handleUpdatingTransactionInfo`. What they do is up to
      the parent; the step only makes the calls. */
  datatype FlowCall =
    | SetStepCall(step: DepositStep)
    | UpdateTransactionInfoCall(info: TransactionInfo)

  /** The callback calls a deposit that Emily accepted ends with: to REVIEW,
      then the txid (the transaction hex is never filled in and stays ""). */
  function ConfirmedCalls(txId: string): (calls: seq<FlowCall>)
    ensures |calls| == 2
    ensures calls[0] == SetStepCall(Review) && calls[1].UpdateTransactionInfoCall?
    ensures calls[1].info.txId == txId && calls[1].info.hex == ""
  {
    [SetStepCall(Review), UpdateTransactionInfoCall(TransactionInfo("", txId))]
  }

  /** The callback calls each ending makes: only an accepted deposit moves
      the flow on. */
  function FlowCallsOf(o: NextClick): (calls: seq<FlowCall>)
    ensures calls != [] <==> o.Deposited?
    ensures o.Deposited? ==> calls == ConfirmedCalls(o.payload.bitcoinTxid)
  {
    if o.Deposited? then ConfirmedCalls(o.payload.bitcoinTxid) else []
  }

  /** Emily is told only after a successful send, always about output 0 of the
      sent transaction and the two scripts of the plan. */
  lemma EmilyOnlyAfterSend(plan: Result<DepositPlan>, provider: Option<WalletProvider>, sent: Result<string>,
                           emilyResponse: Result<bool>)
    requires EmilyRequestsOf(NextClickOf(plan, provider, sent, emilyResponse)) != []
    ensures plan.Ok? && SentTxId(provider, sent).Ok?
    ensures EmilyRequestsOf(NextClickOf(plan, provider, sent, emilyResponse)) ==
              [EmilyPayload(SentTxId(provider, sent).value, 0, plan.value.reclaimScriptHex, plan.value.depositScriptHex)]
  {
  }

  /** A failed send stops the handler: Emily is not called and the deposit
      does not complete. */
  lemma SendFailureStopsFlow(plan: Result<DepositPlan>, provider: Option<WalletProvider>, sent: Result<string>,
                             emilyResponse: Result<bool>)
    requires plan.Ok? && SentTxId(provider, sent).Err?
    ensures NextClickOf(plan, provider, sent, emilyResponse) == SendFailed(SentTxId(provider, sent).error)
    ensures EmilyRequestsOf(NextClickOf(plan, provider, sent, emilyResponse)) == []
    ensures NoticesOf(NextClickOf(plan, provider, sent, emilyResponse)) ==
              [Notification(ErrorNotice, TransactionIssuePrefix + SentTxId(provider, sent).error)]
  {
  }

  /** The deposit completes exactly when the plan is built, the send returns a
      txid and Emily answers ok. */
  lemma DepositedIff(plan: Result<DepositPlan>, provider: Option<WalletProvider>, sent: Result<string>,
                     emilyResponse: Result<bool>)
    ensures NextClickOf(plan, provider, sent, emilyResponse).Deposited? <==>
              plan.Ok? && SentTxId(provider, sent).Ok? && emilyResponse == Ok(true)
  {
  }

  /** An Asigna wallet never completes a deposit: its send always throws. */
  lemma AsignaNeverDeposits(plan: Result<DepositPlan>, sent: Result<string>, emilyResponse: Result<bool>)
    ensures var o := NextClickOf(plan, Some(Asigna), sent, emilyResponse);
            && !o.Deposited? && EmilyRequestsOf(o) == []
            && (plan.Ok? ==> o == SendFailed(NotImplementedMessage))
  {
  }

  /** The part of `handleNextClick` before the send, step by step: the
      default reclaim selection is overwritten for Asigna. */
  method BuildPlan(b: Builders, cfg: BridgeConfig, maxFee: int, wallet: WalletInfo, values: FormValues,
                   aggregateKey: Result<string>) returns (plan: Result<DepositPlan>)
    ensures plan == PlanOf(b, cfg, maxFee, wallet, values, aggregateKey)
  {
    if aggregateKey.Err? {
      return Err(aggregateKey.error);
    }
    var signersAggregatePubKey := DropTwo(aggregateKey.value);
    var serializedAddress := b.serializePrincipal(values.stxAddress);
    if serializedAddress.Err? {
      return Err(serializedAddress.error);
    }
    if wallet.addresses.payment.None? {
      return Err(NoPaymentMessage);
    }
    var reclaimPublicKeys := [wallet.addresses.payment.value.publicKey];
    var signatureThreshold := 1;
    if wallet.selectedWallet == Some(Asigna) {
      if wallet.addresses.musig.None? {
        return Err(NoMusigMessage);
      }
      signatureThreshold := wallet.addresses.musig.value.threshold;
      reclaimPublicKeys := UserKeys(wallet.addresses.musig.value.users);
    }
    var parsedLockTime := LockTimeOf(cfg.reclaimLockTime);
    var reclaimScript := b.reclaimScript(parsedLockTime, reclaimPublicKeys, signatureThreshold);
    var signerBytes := b.hexToBytes(signersAggregatePubKey);
    var depositScript := b.depositScript(signerBytes, maxFee, serializedAddress.value);
    var p2trAddress := b.depositAddress(serializedAddress.value, signersAggregatePubKey, maxFee, parsedLockTime,
                                        cfg.walletNetwork, reclaimPublicKeys, signatureThreshold);
    plan := Ok(DepositPlan(reclaimPublicKeys, signatureThreshold, parsedLockTime,
                           BytesToHex(reclaimScript), BytesToHex(depositScript), p2trAddress));
  }

  /** The confirm step: the shared store, and the calls it has made to its
      parent's callbacks, to the wallets and to Emily. */
  class ConfirmDepositStep {
    const store: Store
    var flowCalls: seq<FlowCall>
    var sends: seq<SendCall>
    var emilyRequests: seq<EmilyPayload>

    constructor (store: Store)
      ensures this.store == store && flowCalls == [] && sends == [] && emilyRequests == []
    {
      this.store := store;
      flowCalls := [];
      sends := [];
      emilyRequests := [];
    }

    /** The sync query's effect: the mismatch notification. */
    method RunSyncQuery(emilyUrl: Option<string>, stacksTip: Result<Option<int>>, emilyTip: Result<Option<int>>)
      returns (data: Option<bool>)
      modifies store`notifications
      ensures data == SyncData(emilyUrl, stacksTip, emilyTip)
      ensures SyncEnabled(emilyUrl) && SyncNotice(SyncCheck(stacksTip, emilyTip)).Some? ==>
                store.notifications == old(store.notifications) + [SyncNotice(SyncCheck(stacksTip, emilyTip)).value]
      ensures !SyncEnabled(emilyUrl) || SyncNotice(SyncCheck(stacksTip, emilyTip)).None? ==>
                store.notifications == old(store.notifications)
    {
      data := None;
      if SyncEnabled(emilyUrl) {
        var outcome := SyncCheck(stacksTip, emilyTip);
        if outcome == OutOfSync {
          store.Notify(ErrorNotice, OutOfSyncMessage);
          data := Some(false);
        } else if outcome == InSync {
          data := Some(true);
        }
      }
    }

    /** The amount pill: back to the amount step. */
    method EditAmount()
      modifies this`flowCalls
      ensures flowCalls == old(flowCalls) + [SetStepCall(Amount)]
    {
      flowCalls := flowCalls + [SetStepCall(Amount)];
    }

    /** The address pill and the BACK button: back to the address step. */
    method Back()
      modifies this`flowCalls
      ensures flowCalls == old(flowCalls) + [SetStepCall(Address)]
    {
      flowCalls := flowCalls + [SetStepCall(Address)];
    }

    /** The `switch` on the selected wallet: at most one send, whose result
        (or exception) is the txid. */
    method SendWithWallet(provider: Option<WalletProvider>, params: SendParams, sent: Result<string>)
      returns (txId: Result<string>)
      modifies this`sends
      ensures txId == SentTxId(provider, sent)
      ensures provider.Some? ==> sends == old(sends) + [SendCall(provider.value, params)]
      ensures provider.None? ==> sends == old(sends)
    {
      txId := Ok("");
      match provider {
        case None =>
        case Some(Asigna) =>
          sends := sends + [SendCall(Asigna, params)];
          txId := Err(NotImplementedMessage);
        case Some(p) =>
          sends := sends + [SendCall(p, params)];
          txId := sent;
      }
    }

    /** From the Emily request on: report the deposit, then on an ok answer
        announce success, move to REVIEW and write the URL. */
    method NotifyEmily(payload: EmilyPayload, emilyResponse: Result<bool>)
      modifies this`emilyRequests, this`flowCalls, store`notifications
      ensures emilyRequests == old(emilyRequests) + [payload]
      ensures var o := if emilyResponse.Err? then EmilyThrew(payload, emilyResponse.error)
                       else if emilyResponse.value then Deposited(payload) else EmilyRejected(payload);
              store.notifications == old(store.notifications) + NoticesOf(o)
      ensures emilyResponse == Ok(true) ==> flowCalls == old(flowCalls) + ConfirmedCalls(payload.bitcoinTxid)
      ensures emilyResponse != Ok(true) ==> flowCalls == old(flowCalls)
    {
      emilyRequests := emilyRequests + [payload];
      match emilyResponse {
        case Err(e) =>
          store.Notify(ErrorNotice, DepositErrorPrefix + e);
        case Ok(ok) =>
          if !ok {
            store.Notify(ErrorNotice, EmilyIssueMessage);
            store.Notify(ErrorNotice, DepositErrorPrefix + RequestErrorMessage);
          } else {
            store.Notify(SuccessNotice, DepositSuccessMessage);
            flowCalls := flowCalls + [SetStepCall(Review)];
            flowCalls := flowCalls + [UpdateTransactionInfoCall(TransactionInfo("", payload.bitcoinTxid))];
          }
      }
    }

    /** `handleNextClick`. `aggregateKey`, `sent` and `emilyResponse` are the
        results of `getAggregateKey`, of the selected wallet's send and of
        `notifyEmily` (whether the response is ok). */
    method HandleNextClick(b: Builders, cfg: BridgeConfig, maxFee: int, values: FormValues,
                           aggregateKey: Result<string>, sent: Result<string>, emilyResponse: Result<bool>)
      modifies this`sends, this`emilyRequests, this`flowCalls, store`notifications
      ensures var plan := PlanOf(b, cfg, maxFee, store.walletInfo, values, aggregateKey);
              var provider := store.walletInfo.selectedWallet;
              var o := NextClickOf(plan, provider, sent, emilyResponse);
              && sends == old(sends) + SendCallsOf(plan, provider, values, cfg)
              && emilyRequests == old(emilyRequests) + EmilyRequestsOf(o)
              && store.notifications == old(store.notifications) + NoticesOf(o)
              && flowCalls == old(flowCalls) + FlowCallsOf(o)
    {
      var wallet := store.walletInfo;
      var plan := BuildPlan(b, cfg, maxFee, wallet, values, aggregateKey);
      if plan.Err? {
        store.Notify(ErrorNotice, DepositErrorPrefix + plan.error);
        return;
      }
      var params := SendParams(plan.value.recipient, values.amount, cfg.walletNetwork);
      var txId := SendWithWallet(wallet.selectedWallet, params, sent);
      if txId.Err? {
        store.Notify(ErrorNotice, TransactionIssuePrefix + txId.error);
        return;
      }
      var payload := EmilyPayload(txId.value, 0, plan.value.reclaimScriptHex, plan.value.depositScriptHex);
      NotifyEmily(payload, emilyResponse);
    }
  }
}
