/** The page header (src/comps/Header.tsx): whether a wallet counts as
    connected, which Stacks address it shows, signing out, and connecting a
    Ledger found in storage. */
module Header {
  import opened Wrappers
  import opened Js
  import opened Atoms
  import Ledger

  /** `isConnected`: a software wallet is selected, or a hardware wallet is
      selected and both its transport and its Bitcoin app are open. */
  function IsConnected(wallet: WalletInfo, hardware: HardwareWalletInfo,
                       transport: Option<Transport>, btc: Option<LedgerBtc>): (r: bool)
    ensures r <==> wallet.selectedWallet.Some? ||
                   (hardware.selectedHardware.Some? && transport.Some? && btc.Some?)
  {
    wallet.selectedWallet.Some? || (hardware.selectedHardware.Some? && transport.Some? && btc.Some?)
  }

  /** A selected software wallet always has a Stacks address (the header
      dereferences it without a check). */
  predicate WellFormed(wallet: WalletInfo) {
    wallet.selectedWallet.Some? ==> wallet.addresses.stacks.Some?
  }

  /** `stacksAddress`: the software wallet's Stacks address, "" otherwise (a
      hardware wallet has none). */
  function StacksAddress(wallet: WalletInfo): (r: string)
    requires WellFormed(wallet)
    ensures wallet.selectedWallet.None? ==> r == ""
    ensures wallet.selectedWallet.Some? ==> r == wallet.addresses.stacks.value.address
  {
    if wallet.selectedWallet.Some? then wallet.addresses.stacks.value.address else ""
  }

  /** The sBTC balance is shown only for a non-empty Stacks address. */
  function ShowsBalance(wallet: WalletInfo): (r: bool)
    requires WellFormed(wallet)
    ensures r ==> wallet.selectedWallet.Some?
    ensures r <==> StacksAddress(wallet) != ""
  {
    StacksAddress(wallet) != ""
  }

  const TestnetName: string := "sbtcTestnet"

  /** `isTestnet`: the configured network equals "sbtcTestnet" ignoring case
      (an absent network is not testnet). */
  function IsTestnet(walletNetwork: Option<string>): (r: bool)
    ensures r <==> walletNetwork.Some? && |walletNetwork.value| == |TestnetName| &&
                   forall k :: 0 <= k < |TestnetName| ==> LowerChar(walletNetwork.value[k]) == LowerChar(TestnetName[k])
  {
    walletNetwork.Some? && ToLower(walletNetwork.value) == ToLower(TestnetName)
  }

  /** Two spellings that differ only in the case of their letters are both
      testnet or both not. */
  lemma IsTestnetIgnoresCase(a: string, b: string)
    requires |a| == |b| && forall k :: 0 <= k < |a| ==> LowerChar(a[k]) == LowerChar(b[k])
    ensures IsTestnet(Some(a)) == IsTestnet(Some(b))
  {
    assert ToLower(a) == ToLower(b);
  }

  /** `isMintCapReached`: the connect button is disabled while the cap is not positive. */
  function IsMintCapReached(currentCap: int): (r: bool)
    ensures r <==> currentCap <= 0
  {
    currentCap <= 0
  }

  /** The reconnect effect runs `handleConnectLedger` only when a Ledger is
      selected but its transport or app is missing. */
  function NeedsReconnect(hardware: HardwareWalletInfo, transport: Option<Transport>, btc: Option<LedgerBtc>): (r: bool)
    ensures r ==> hardware.selectedHardware == Some(Ledger)
    ensures r ==> !IsConnected(NoWallet, hardware, transport, btc)
    ensures hardware.selectedHardware == Some(Ledger) && !r ==> transport.Some? && btc.Some?
  {
    hardware.selectedHardware == Some(Ledger) && (transport.None? || btc.None?)
  }

  /** `handleSignOut`: forgets both wallet selections and the Ledger handles. */
  method SignOut(store: Store)
    modifies store
    ensures store.walletInfo == NoWallet && store.hardwareWalletInfo == NoHardware
    ensures store.transport == None && store.btc == None
    ensures store.notifications == old(store.notifications) + [Notification(SuccessNotice, "Wallet disconnected")]
    ensures store.showConnectWallet == old(store.showConnectWallet) && store.showConnectLedger == old(store.showConnectLedger)
  {
    store.walletInfo := WalletInfo(None, Addresses(None, None, None, None));
    store.hardwareWalletInfo := HardwareWalletInfo(None, None);
    store.transport := None;
    store.btc := None;
    store.Notify(SuccessNotice, "Wallet disconnected");
  }

  /** After signing out nothing is connected, no address is shown and no
      reconnect is attempted. */
  lemma SignedOutIsDisconnected()
    ensures !IsConnected(NoWallet, NoHardware, None, None)
    ensures StacksAddress(NoWallet) == ""
    ensures !NeedsReconnect(NoHardware, None, None)
  {
  }

  const RetryMessage: string := "Failed to connect to Ledger Please try again"

  /** `handleConnectLedger`: `created` is the result of TransportWebHID.create(),
      `walletKey` the address and public key getWalletPublicKey returns. */
  method ConnectLedger(store: Store, created: Result<Option<Transport>>, walletKey: Result<AddressInfo>)
    modifies store
    ensures created.Err? ==>
              store.hardwareWalletInfo == NoHardware
              && store.transport == old(store.transport) && store.btc == old(store.btc)
              && store.notifications == old(store.notifications) + [Notification(ErrorNotice, RetryMessage)]
    ensures created == Ok(None) ==>
              store.hardwareWalletInfo == old(store.hardwareWalletInfo)
              && store.transport == old(store.transport) && store.btc == old(store.btc)
              && store.notifications == old(store.notifications) + [Notification(ErrorNotice, Ledger.NoTransportMessage)]
    ensures created.Ok? && created.value.Some? ==>
              store.transport == created.value && store.btc == Some(LedgerBtc(created.value.value))
              && (walletKey.Ok? ==>
                    store.hardwareWalletInfo == HardwareWalletInfo(Some(Ledger), Some(walletKey.value))
                    && store.notifications == old(store.notifications))
              && (walletKey.Err? ==>
                    store.hardwareWalletInfo == NoHardware
                    && store.notifications == old(store.notifications) + [Notification(ErrorNotice, RetryMessage)])
    ensures store.walletInfo == old(store.walletInfo)
    ensures store.showConnectWallet == old(store.showConnectWallet) && store.showConnectLedger == old(store.showConnectLedger)
  {
    match created {
      case Err(_) =>
        store.hardwareWalletInfo := HardwareWalletInfo(None, None);
        store.Notify(ErrorNotice, RetryMessage);
      case Ok(None) =>
        store.Notify(ErrorNotice, Ledger.NoTransportMessage);
      case Ok(Some(t)) =>
        store.transport := Some(t);
        store.btc := Some(LedgerBtc(t));
        match walletKey {
          case Err(_) =>
            store.hardwareWalletInfo := HardwareWalletInfo(None, None);
            store.Notify(ErrorNotice, RetryMessage);
          case Ok(info) =>
            store.hardwareWalletInfo := HardwareWalletInfo(Some(Ledger), Some(info));
        }
    }
  }

  /** The effect on a change of the hardware selection: reconnect a stored
      Ledger whose handles are missing, and do nothing otherwise. */
  method ReconnectEffect(store: Store, created: Result<Option<Transport>>, walletKey: Result<AddressInfo>)
    modifies store
    ensures !old(NeedsReconnect(store.hardwareWalletInfo, store.transport, store.btc)) ==>
              store.walletInfo == old(store.walletInfo) && store.hardwareWalletInfo == old(store.hardwareWalletInfo)
              && store.transport == old(store.transport) && store.btc == old(store.btc)
              && store.notifications == old(store.notifications)
    ensures old(NeedsReconnect(store.hardwareWalletInfo, store.transport, store.btc)) && created.Ok?
              && created.value.Some? && walletKey.Ok? ==>
              IsConnected(store.walletInfo, store.hardwareWalletInfo, store.transport, store.btc)
    ensures store.walletInfo == old(store.walletInfo)
    ensures store.showConnectWallet == old(store.showConnectWallet) && store.showConnectLedger == old(store.showConnectLedger)
  {
    if NeedsReconnect(store.hardwareWalletInfo, store.transport, store.btc) {
      ConnectLedger(store, created, walletKey);
    }
  }
}
