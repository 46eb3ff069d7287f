/** The shared client state the core reads and writes: the wallet selection,
    the hardware-wallet selection, the Ledger transport and app handles, the
    two dialog flags, and the notifications shown to the user. In the
    application these are jotai atoms; here they are the fields of one store. */
module Atoms {
  import opened Wrappers

  datatype WalletProvider = Leather | Xverse | Fordefi | Asigna

  datatype HardwareWalletProvider = Ledger

  /** An address together with the public key that controls it. */
  datatype AddressInfo = AddressInfo(address: string, publicKey: string)

  datatype MusigUser = MusigUser(publicKey: string)

  /** The multi-signature account of an Asigna wallet. */
  datatype MusigInfo = MusigInfo(threshold: int, users: seq<MusigUser>)

  datatype Addresses = Addresses(
    payment: Option<AddressInfo>,
    taproot: Option<AddressInfo>,
    stacks: Option<AddressInfo>,
    musig: Option<MusigInfo>)

  datatype WalletInfo = WalletInfo(selectedWallet: Option<WalletProvider>, addresses: Addresses)

  datatype HardwareWalletInfo = HardwareWalletInfo(
    selectedHardware: Option<HardwareWalletProvider>,
    payment: Option<AddressInfo>)

  /** A WebHID transport to a Ledger; `deviceModel?.productName`. */
  datatype Transport = Transport(productName: Option<string>)

  /** The Ledger Bitcoin app opened over a transport. */
  datatype LedgerBtc = LedgerBtc(transport: Transport)

  datatype NotificationType = ErrorNotice | SuccessNotice

  datatype Notification = Notification(kind: NotificationType, message: string)

  /** `!!address?.address`: present and not the empty string. */
  predicate HasAddress(a: Option<AddressInfo>) {
    a.Some? && a.value.address != ""
  }

  const NoWallet: WalletInfo := WalletInfo(None, Addresses(None, None, None, None))

  const NoHardware: HardwareWalletInfo := HardwareWalletInfo(None, None)

  class Store {
    var walletInfo: WalletInfo
    var hardwareWalletInfo: HardwareWalletInfo
    var transport: Option<Transport>
    var btc: Option<LedgerBtc>
    var showConnectWallet: bool
    var showConnectLedger: bool
    var notifications: seq<Notification>

    /** The two wallet selections may be restored from storage; the device
        handles, the dialogs and the notifications start empty. */
    constructor (wallet: WalletInfo, hardware: HardwareWalletInfo)
      ensures walletInfo == wallet && hardwareWalletInfo == hardware
      ensures transport == None && btc == None
      ensures !showConnectWallet && !showConnectLedger && notifications == []
    {
      walletInfo := wallet;
      hardwareWalletInfo := hardware;
      transport := None;
      btc := None;
      showConnectWallet := false;
      showConnectLedger := false;
      notifications := [];
    }

    /** `notify({type, message})` */
    method Notify(kind: NotificationType, message: string)
      modifies this`notifications
      ensures notifications == old(notifications) + [Notification(kind, message)]
    {
      notifications := notifications + [Notification(kind, message)];
    }
  }
}
