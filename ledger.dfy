/** The Ledger connect wizard (src/comps/ledger/ledger-connect.tsx,
    ledger-welcome.tsx, ledger-device.tsx): a three-step dialog
    0 unlock / 1 device / 2 account, whose device step talks to the Ledger and
    stores the compressed key and its regtest P2WPKH address. */
module Ledger {
  import opened Wrappers
  import opened Hex
  import opened PubKey
  import opened Atoms

  /** What the wizard shows for its current step. */
  datatype WizardView = WelcomeView | DeviceView | SuccessView | SomethingWentWrong

  /** `handleRenderStep` */
  function RenderStep(step: int): (v: WizardView)
    ensures v == SomethingWentWrong <==> !(0 <= step <= 2)
    ensures step == 0 <==> v == WelcomeView
    ensures step == 1 <==> v == DeviceView
    ensures step == 2 <==> v == SuccessView
  {
    if step == 0 then WelcomeView
    else if step == 1 then DeviceView
    else if step == 2 then SuccessView
    else SomethingWentWrong
  }

  datatype StepperItem = StepperItem(index: int, name: string, lastStep: int)

  /** The stepper above the wizard's content. */
  const Stepper: seq<StepperItem> :=
    [StepperItem(0, "Unlock", 2), StepperItem(1, "Device", 2), StepperItem(2, "Account", 2)]

  /** The stepper lists exactly the steps that render a view, in order, and
      each of its items names the last of them. */
  lemma StepperMatchesRenderStep(step: int)
    ensures RenderStep(step) != SomethingWentWrong <==>
            exists k :: 0 <= k < |Stepper| && Stepper[k].index == step
    ensures forall k :: 0 <= k < |Stepper| ==> Stepper[k].index == k && Stepper[k].lastStep == |Stepper| - 1
  {
    if 0 <= step <= 2 {
      assert Stepper[step].index == step;
    }
  }

  /** What `LedgerSuccess` shows. */
  datatype SuccessPanel = FailedPanel | ConnectedPanel(message: string)

  const SuccessPrefix: string := "Successfully Connected to "

  /** Without a transport the panel reports failure and offers "Try Again";
      with one it names the device's product name (nothing when unknown). */
  function SuccessPanelOf(transport: Option<Transport>): (p: SuccessPanel)
    ensures p.FailedPanel? <==> transport.None?
    ensures transport.Some? ==>
              p.message == SuccessPrefix + transport.value.productName.GetOr("") + " "
  {
    match transport
    case None => FailedPanel
    case Some(t) => ConnectedPanel(SuccessPrefix + t.productName.GetOr("") + " ")
  }

  const NoTransportMessage: string := "Failed to connect to Ledger: No transport found"
  const NoAddressMessage: string := "Failed to generate regtest address"
  const LedgerErrorPrefix: string := "Ledger Error"

  /** How one run of `connectLedger` ends. */
  datatype DeviceOutcome =
    | CreateThrew(error: string)                 // TransportWebHID.create() threw
    | NoTransport                                // it returned no transport
    | KeyThrew(t: Transport, error: string)      // a later step threw, after the handles were stored
    | NoAddress(t: Transport)                    // p2wpkh produced no address
    | Connected(t: Transport, payment: AddressInfo)

  /** The outcome of `connectLedger`, given what the device calls return:
      `created` is the result of TransportWebHID.create(), `deviceKey` the
      public key read with getWalletPublicKey (already turned into bytes), and
      `p2wpkh` bitcoinjs-lib's regtest P2WPKH address of a key ("" when it
      gives none). Errors are carried as their `String(error)` text. */
  function DeviceOutcomeOf(created: Result<Option<Transport>>, deviceKey: Result<seq<Byte>>,
                           p2wpkh: seq<Byte> -> Result<string>): (o: DeviceOutcome)
    ensures o.CreateThrew? <==> created.Err?
    ensures o.NoTransport? <==> created == Ok(None)
    ensures created.Ok? && created.value.Some? ==> !o.CreateThrew? && !o.NoTransport? && o.t == created.value.value
    ensures o.Connected? ==> deviceKey.Ok? && o.payment.address != "" && |o.payment.publicKey| == 66
  {
    match created
    case Err(e) => CreateThrew(e)
    case Ok(None) => NoTransport
    case Ok(Some(t)) =>
      match deviceKey
      case Err(e) => KeyThrew(t, e)
      case Ok(key) =>
        match Compress(key)
        case Err(e) => KeyThrew(t, "Error: " + e)
        case Ok(compressed) =>
          match p2wpkh(compressed)
          case Err(e) => KeyThrew(t, e)
          case Ok(address) =>
            if address == "" then NoAddress(t)
            else Connected(t, AddressInfo(address, BytesToHex(compressed)))
  }

  /** A successful connection stores the device's key in compressed form: its
      hex text is 66 characters and reads back as the compression of the key
      the device returned, and the address is the P2WPKH address of that key. */
  lemma ConnectedStoresCompressedKey(created: Result<Option<Transport>>, deviceKey: Result<seq<Byte>>,
                                     p2wpkh: seq<Byte> -> Result<string>)
    requires DeviceOutcomeOf(created, deviceKey, p2wpkh).Connected?
    ensures deviceKey.Ok? && Compress(deviceKey.value).Ok?
    ensures var c := Compress(deviceKey.value).value;
            var info := DeviceOutcomeOf(created, deviceKey, p2wpkh).payment;
            && IsCompressed(c)
            && ParseHex(info.publicKey) == Some(c)
            && |info.publicKey| == 66
            && p2wpkh(c) == Ok(info.address) && info.address != ""
  {
    ParseBytesToHex(Compress(deviceKey.value).value);
  }

  /** A device key that is neither compressed nor uncompressed never connects. */
  lemma MalformedKeyNeverConnects(created: Result<Option<Transport>>, key: seq<Byte>,
                                  p2wpkh: seq<Byte> -> Result<string>)
    requires !IsCompressed(key) && !IsUncompressed(key)
    ensures !DeviceOutcomeOf(created, Ok(key), p2wpkh).Connected?
    ensures created.Ok? && created.value.Some? ==>
              DeviceOutcomeOf(created, Ok(key), p2wpkh) == KeyThrew(created.value.value, "Error: " + InvalidFormatMessage)
  {
  }

  /** `LedgerConnect`: the wizard's `currentStep` over the shared store. */
  class LedgerConnect {
    var currentStep: int
    const store: Store

    constructor (store: Store)
      ensures currentStep == 0 && this.store == store
    {
      currentStep := 0;
      this.store := store;
    }

    /** `LedgerWelcome`'s button. */
    method Welcome()
      modifies this
      ensures currentStep == 1
    {
      currentStep := 1;
    }

    /** The one button of `LedgerSuccess`: "Try Again" without a transport
        (back to step 0), "Get Started" with one (hides the dialog, keeps the step). */
    method SuccessPress()
      modifies this, store
      ensures old(store.transport).None? ==> currentStep == 0 && store.showConnectLedger == old(store.showConnectLedger)
      ensures old(store.transport).Some? ==> currentStep == old(currentStep) && !store.showConnectLedger
      ensures store.walletInfo == old(store.walletInfo) && store.hardwareWalletInfo == old(store.hardwareWalletInfo)
      ensures store.transport == old(store.transport) && store.btc == old(store.btc)
      ensures store.notifications == old(store.notifications) && store.showConnectWallet == old(store.showConnectWallet)
    {
      if store.transport.None? {
        currentStep := 0;
      } else {
        store.showConnectLedger := false;
      }
    }

    /** A click on the backdrop closes the dialog; a click inside the panel
        stops there. */
    method Click(onBackdrop: bool)
      modifies store
      ensures store.showConnectLedger == (old(store.showConnectLedger) && !onBackdrop)
      ensures store.walletInfo == old(store.walletInfo) && store.hardwareWalletInfo == old(store.hardwareWalletInfo)
      ensures store.transport == old(store.transport) && store.btc == old(store.btc)
      ensures store.notifications == old(store.notifications) && store.showConnectWallet == old(store.showConnectWallet)
    {
      if onBackdrop {
        store.showConnectLedger := false;
      }
    }

    /** `connectLedger` of `LedgerDevice`. */
    method ConnectLedger(created: Result<Option<Transport>>, deviceKey: Result<seq<Byte>>,
                         p2wpkh: seq<Byte> -> Result<string>)
      modifies this, store
      ensures var o := DeviceOutcomeOf(created, deviceKey, p2wpkh);
        && (o.CreateThrew? ==>
              currentStep == 0 && store.transport == old(store.transport) && store.btc == old(store.btc)
              && store.hardwareWalletInfo == old(store.hardwareWalletInfo)
              && store.notifications == old(store.notifications) + [Notification(ErrorNotice, LedgerErrorPrefix + o.error)])
        && (o.NoTransport? ==>
              currentStep == old(currentStep) && store.transport == old(store.transport) && store.btc == old(store.btc)
              && store.hardwareWalletInfo == old(store.hardwareWalletInfo)
              && store.notifications == old(store.notifications) + [Notification(ErrorNotice, NoTransportMessage)])
        && (o.KeyThrew? ==>
              currentStep == 0 && store.transport == Some(o.t) && store.btc == Some(LedgerBtc(o.t))
              && store.hardwareWalletInfo == old(store.hardwareWalletInfo)
              && store.notifications == old(store.notifications) + [Notification(ErrorNotice, LedgerErrorPrefix + o.error)])
        && (o.NoAddress? ==>
              currentStep == old(currentStep) && store.transport == Some(o.t) && store.btc == Some(LedgerBtc(o.t))
              && store.hardwareWalletInfo == old(store.hardwareWalletInfo)
              && store.notifications == old(store.notifications) + [Notification(ErrorNotice, NoAddressMessage)])
        && (o.Connected? ==>
              currentStep == 2 && store.transport == Some(o.t) && store.btc == Some(LedgerBtc(o.t))
              && store.hardwareWalletInfo == HardwareWalletInfo(Some(Ledger), Some(o.payment))
              && store.notifications == old(store.notifications))
      ensures store.walletInfo == old(store.walletInfo)
      ensures store.showConnectWallet == old(store.showConnectWallet) && store.showConnectLedger == old(store.showConnectLedger)
    {
      match created {
        case Err(e) =>
          store.Notify(ErrorNotice, LedgerErrorPrefix + e);
          currentStep := 0;
        case Ok(None) =>
          store.Notify(ErrorNotice, NoTransportMessage);
        case Ok(Some(t)) =>
          store.transport := Some(t);
          store.btc := Some(LedgerBtc(t));
          var failure: Option<string> := None;
          match deviceKey {
            case Err(e) =>
              failure := Some(e);
            case Ok(key) =>
              var compressed := Compress(key);
              if compressed.Err? {
                failure := Some("Error: " + compressed.error);
              } else {
                var address := p2wpkh(compressed.value);
                if address.Err? {
                  failure := Some(address.error);
                } else if address.value == "" {
                  store.Notify(ErrorNotice, NoAddressMessage);
                } else {
                  store.hardwareWalletInfo :=
                    HardwareWalletInfo(Some(Ledger), Some(AddressInfo(address.value, BytesToHex(compressed.value))));
                  currentStep := 2;
                }
              }
          }
          if failure.Some? {
            store.Notify(ErrorNotice, LedgerErrorPrefix + failure.value);
            currentStep := 0;
          }
      }
    }
  }
}
