# sBTC bridge client: a Dafny model of its deposit and wallet logic

The sBTC bridge web client lets a user connect a Bitcoin/Stacks wallet or a
Ledger, deposit BTC to receive sBTC, and follow the deposit. This project
models the client's decision and state logic and proves what it promises:

- **Public-key compression** of the Ledger's key (`PubKey`). The key is
  compressed as in section 2.3.3 of SEC 1 v2: a 33-byte result, prefix 0x02
  or 0x03 from the parity of Y, then X. Keys that are already compressed pass
  through, and malformed keys are rejected. The curve equation is not
  checked, and the model does not claim that it is. Also here: the `regtest`
  network record.
- **The Ledger connect wizard** (`Ledger`). Its three steps and stepper, the
  success panel, and `connectLedger`, whose outcome decides the store updates
  and the step.
- **The header** (`Header`):
  - when a wallet counts as connected;
  - the Stacks address shown;
  - sign-out;
  - reconnecting a stored Ledger, and its success and failure updates;
  - the testnet and mint-cap flags.
- **The generic flow form** (`Form`):
  - the required-connection predicates and the connect text;
  - the monotone `dirty` latch and the initial note;
  - storing a submit error;
  - the `reduce` that builds `FlowFormDynamic`'s initial values. This one is
    a loop with invariants.
- **The deposit flow page** (`Deposit`):
  - the step enum, and the form values and step restored from the URL;
  - the query written after a confirmed deposit, and its round trip back
    through the restore logic;
  - the redirect from a failed deposit to reclaim;
  - the amount bounds;
  - the displayed amount and the step views.
- **The confirm step** (`ConfirmDeposit`):
  - the check that Emily is in sync with the Stacks chain. Emily is the
    bridge's deposit-tracking API. The heights are compared with `!==`, so
    when neither answer carries a height the check passes;
  - the reclaim keys and threshold, and the lock time;
  - one send per selected wallet. Asigna always fails;
  - Emily is notified only after a successful send, and the step calls its
    parent's `setStep(REVIEW)` and `handleUpdatingTransactionInfo` only on an
    ok answer.
- **Emily deposit records and the deposit query** (`TxUtils`). Only
  confirmed records carry a fulfillment, and every record carries its
  `Parameters` (maxFee, lockTime). The status request is a GET of
  `/api/emilyDeposit?bitcoinTxid=<txid>&vout=0`.

Support modules:

| module | what it provides |
|---|---|
| `Wrappers` | `Option` and `Result`, which stand in for `null`/`undefined` and for exceptions |
| `Js` | the parts of `Number()`, `parseInt`, `String(n)` and `toLowerCase` the code relies on |
| `Hex` | `bytesToHex` and its inverse |
| `SearchParams` | `URLSearchParams` with `append`, `set`, `get` and `toString` |
| `Atoms` | the jotai atoms, as the fields of one `Store` class |

The model's form follows the code. Pure computations are functions with
contracts, and lemmas relate them. Code that updates state is written as a
class with methods that change its fields:

- the atoms;
- the Ledger wizard's step;
- the deposit page's step, txid and router pushes;
- the form's latch and errors;
- the confirm step's calls to its parent's callbacks, to the wallets and to
  Emily.

Each such method is proved against a function that gives its outcome. Every
network call, device call, wallet call and library builder is an input: a
`Result`/`Option` value, or a function in a record of builders.

## Model

| member | source | states |
|---|---|---|
| PubKey.Compress | src/comps/ledger/ledger-device.tsx:38-62 | a 33-byte key starting 0x02/0x03 is returned as is; the result is an error, with the fixed "Invalid pubKey format" message, exactly when the key is neither that nor 65 bytes starting 0x04; a result is always a compressed key, with prefix 0x03 iff the last input byte is odd and bytes 1..32 equal to the input's X |
| PubKey.CompressIdempotent | src/comps/ledger/ledger-device.tsx:40-42 | compressing a successful output again gives the same output |
| PubKey.CompressMatchesSec1 | src/comps/ledger/ledger-device.tsx:51-61 | for any 32-byte X and Y, the SEC 1 uncompressed encoding of (X, Y) compresses to the SEC 1 compressed encoding, which is itself a fixed point |
| PubKey.CompressKeepsXAndParity | src/comps/ledger/ledger-device.tsx:52-54 | two uncompressed keys compress to the same key iff they share X and the parity of Y |
| PubKey.RegtestIsTestnetWithBcrt | src/comps/ledger/ledger-device.tsx:28-36 | `regtest` is the testnet record with bech32 prefix "bcrt" and bip32 versions 0x043587cf / 0x04358394 |
| Hex.ParseBytesToHex | src/comps/ledger/ledger-device.tsx:151 | the hex text stored for the compressed key is twice as long as the key and reads back to exactly that key |
| Hex.BytesToHexInjective | src/comps/ledger/ledger-device.tsx:151 | different keys are stored as different hex texts |
| Hex.BytesToHex | src/comps/reskin/deposit/confirm-deposit.tsx:140-148 | the hex text has two lower-case hex digits per byte |
| Ledger.RenderStep | src/comps/ledger/ledger-connect.tsx:19-27 | step 0, 1 and 2 show the welcome, device and success views; every other step shows "Something went wrong" |
| Ledger.StepperMatchesRenderStep | src/comps/ledger/ledger-connect.tsx:53-70 | the stepper has exactly the items 0, 1, 2 with lastStep 2, which are exactly the steps with a view |
| Ledger.SuccessPanelOf | src/comps/ledger/ledger-welcome.tsx:42-54 | without a transport the failure panel is shown; with one, "Successfully Connected to" followed by the device's product name |
| Ledger.DeviceOutcomeOf | src/comps/ledger/ledger-device.tsx:81-164 | the run ends with the create error iff `TransportWebHID.create` throws, and without a transport iff it returns none; any later ending keeps the transport; a connection needs a device key and has a non-empty address and a 66-character hex key |
| Ledger.LedgerConnect.constructor | src/comps/ledger/ledger-connect.tsx:16 | the wizard starts at step 0 |
| Ledger.LedgerConnect.Welcome | src/comps/ledger/ledger-welcome.tsx:22 | the welcome button moves to step 1 |
| Ledger.LedgerConnect.SuccessPress | src/comps/ledger/ledger-welcome.tsx:42-62 | without a transport "Try Again" goes back to step 0; with one "Get Started" hides the Ledger dialog and keeps the step; nothing else changes |
| Ledger.LedgerConnect.Click | src/comps/ledger/ledger-connect.tsx:35-42 | a click on the backdrop closes the dialog; a click inside the panel changes nothing |
| Ledger.LedgerConnect.ConnectLedger | src/comps/ledger/ledger-device.tsx:78-167 | no transport: the "No transport found" notice, nothing stored; with a transport, the transport and app are stored first; then a thrown error gives a "Ledger Error" notice and step 0, an empty address gives its notice and keeps the step, and success stores LEDGER with the address and compressed key and moves to step 2 |
| Ledger.ConnectedStoresCompressedKey | src/comps/ledger/ledger-device.tsx:119-154 | a successful connection stores a 66-character hex key that reads back as the compression of the device's key, and the non-empty P2WPKH address of that compressed key |
| Ledger.MalformedKeyNeverConnects | src/comps/ledger/ledger-device.tsx:125-164 | a device key that is neither compressed nor uncompressed never connects; it ends in the "Ledger Error" path with the compression error |
| Header.IsConnected | src/comps/Header.tsx:71-77 | connected iff a software wallet is selected, or a hardware wallet is selected and both the transport and the Bitcoin app are present |
| Header.StacksAddress | src/comps/Header.tsx:79-86 | the selected software wallet's Stacks address, "" without a software wallet |
| Header.ShowsBalance | src/comps/Header.tsx:186 | the balance is shown iff the Stacks address is non-empty, which needs a software wallet |
| Header.IsTestnet | src/comps/Header.tsx:179-180 | the flag is set iff a network is configured and it equals "sbtcTestnet" character by character once both are lower-cased |
| Header.IsTestnetIgnoresCase | src/comps/Header.tsx:179-180 | two network names that differ only in letter case give the same testnet flag |
| Header.IsMintCapReached | src/comps/Header.tsx:178 | the connect button is disabled iff the current cap is at most 0 |
| Header.NeedsReconnect | src/comps/Header.tsx:62-65 | a reconnect is attempted only for a stored LEDGER selection that is not connected; a LEDGER selection with transport and app present is left alone |
| Header.ReconnectEffect | src/comps/Header.tsx:60-69 | without the need to reconnect nothing changes; a reconnect whose device and key requests succeed leaves the header connected |
| Header.SignOut | src/comps/Header.tsx:88-109 | sign-out clears the wallet selection and addresses, the hardware selection and its payment address, the transport and the app, and notifies "Wallet disconnected" |
| Header.SignedOutIsDisconnected | src/comps/Header.tsx:88-104 | after sign-out nothing is connected, no Stacks address is shown and no reconnect is attempted |
| Header.ConnectLedger | src/comps/Header.tsx:111-176 | a failed create or key request resets the hardware info to no selection and a null address and shows the retry notice; no transport gives its notice and changes nothing; success records LEDGER with the device's address and key |
| Form.EffectiveConnection | src/comps/core/Form.tsx:34 | the required connection defaults to "btc" |
| Form.IsConnected | src/comps/core/Form.tsx:38-49 | "btc" needs a payment address, "stx" a Stacks address, "both" both |
| Form.ConnectText | src/comps/core/Form.tsx:51-63 | "Connect Bitcoin wallet" iff btc is required and missing; "Connect Stacks wallet" iff stx is required and missing; "Connect wallet" otherwise |
| Form.ConnectTextNamesMissingWallet | src/comps/core/Form.tsx:51-63 | whenever the form is not connected, the text names the missing wallet for "btc" and "stx", and is generic for "both" |
| Form.NoteViewOf | src/comps/core/Form.tsx:93-95 | the note is rendered iff `initialNote` is non-empty, and is visible iff the form is not dirty and `initialValue` is non-empty |
| Form.NoteHiddenAfterEdit | src/comps/core/Form.tsx:95 | once the field has been edited the note is never visible |
| Form.NextDisabled | src/comps/core/Form.tsx:121 | NEXT is enabled iff the form is valid and the `disabled` prop is not set |
| Form.FlowFormState.constructor | src/comps/core/Form.tsx:80 | the latch starts unset, with no touched fields and no errors |
| Form.FlowFormState.DirtyEffect | src/comps/core/Form.tsx:80-85 | the latch becomes the disjunction of itself and Formik's `dirty`, so once set it stays set |
| Form.FlowFormState.Submit | src/comps/core/Form.tsx:70-76 | a non-empty string from `handleSubmit` marks the field touched and becomes its only error; any other answer leaves touched and errors unchanged |
| Form.DynamicInitialValues | src/comps/core/Form.tsx:157-163 | the keys are exactly the given names (except `__proto__`, which a plain object ignores), and each maps to the value of its last occurrence |
| Deposit.StepOf | src/comps/Deposit.tsx:35-40 | only 0..3 name a step, and each names the step with that number |
| Deposit.StepNumbering | src/comps/Deposit.tsx:35-40 | AMOUNT=0, ADDRESS=1, CONFIRM=2, REVIEW=3, and numbering then naming gives back the step |
| Deposit.InitialValues | src/comps/Deposit.tsx:81-93 | without a truthy `step` in the URL both fields are ""; otherwise amount and stxAddress come from the URL, "" when missing |
| Deposit.InitialValuesWithoutStep | src/comps/Deposit.tsx:82-88 | a missing, zero or non-numeric `step` gives empty initial values |
| Deposit.DepositFlow.constructor | src/comps/Deposit.tsx:78-79 | the page starts at AMOUNT with txid "" and no navigation |
| Deposit.DepositFlow.SetStep | src/comps/Deposit.tsx:106-108 | `setStep` sets the step |
| Deposit.DepositFlow.SearchParamsEffect | src/comps/Deposit.tsx:95-104 | a falsy `step` resets to AMOUNT; `step`=3 restores REVIEW with the URL's txId or ""; steps 1 and 2 leave step and txid unchanged |
| Deposit.JsString | src/comps/Deposit.tsx:119 | `String` of a missing address is "undefined", of a present one the address itself |
| Deposit.ConfirmedQuery | src/comps/Deposit.tsx:116-120 | the query has exactly four pairs: txId, step "3", stxAddress, amount (default ""), in that order |
| Deposit.DepositFlow.HandleUpdatingTransactionInfo | src/comps/Deposit.tsx:110-124 | the txid is recorded, and the four `set` calls on a fresh `URLSearchParams` produce exactly that query, which is pushed on the current path (as its pairs; the URL text is `Serialize` of them) |
| Deposit.ConfirmedQueryRestores | src/comps/Deposit.tsx:81-124 | reading the written query pairs back gives step REVIEW, the same txid and the same form values |
| Deposit.DepositFlow.StatusEffect | src/comps/Deposit.tsx:152-156 | a Failed status with a non-empty txid pushes `/reclaim?depositTxId=<txid>`; otherwise nothing is pushed |
| Deposit.BtcAmount | src/comps/Deposit.tsx:148-150 | the value of the first output of the status response, 0 without a response; a response without outputs throws |
| Deposit.CheckAmount | src/comps/Deposit.tsx:166-189 | "required" iff there is no amount; a below-minimum rejection names the minimum in BTC, an over-balance one the balance, an over-cap one the cap in BTC |
| Deposit.CheckAmountBounds | src/comps/Deposit.tsx:166-189 | an amount passes iff it is at least the minimum and at most both balance and cap (satoshis / 10^8); below the minimum it fails with the minimum; at or above the minimum but over the balance or the cap, it fails naming the balance when the balance is below the cap and naming the cap otherwise |
| Deposit.RenderStep | src/comps/Deposit.tsx:190-221 | each of the four steps has its view, and the review view shows the first output's amount, the recipient and the txid; any other value shows the error view |
| ConfirmDeposit.RpcFor | src/comps/reskin/deposit/confirm-deposit.tsx:60-67 | devnet uses the devnet API, testnet the testnet API, every other network mainnet's |
| ConfirmDeposit.SyncCheck | src/comps/reskin/deposit/confirm-deposit.tsx:68-97 | in sync iff both requests succeed and the two heights are equal, where absent equals absent; no verdict iff a request fails; out of sync iff both succeed and the heights differ |
| ConfirmDeposit.SyncNotice | src/comps/reskin/deposit/confirm-deposit.tsx:85-91 | the out-of-sync notice is shown exactly on a mismatch |
| ConfirmDeposit.SyncData | src/comps/reskin/deposit/confirm-deposit.tsx:55-100 | no data iff the query is disabled (no Emily URL) or a request fails; true iff it is enabled and the heights are equal; false iff it is enabled and they differ |
| ConfirmDeposit.ConfirmShownIffInSync | src/comps/reskin/deposit/confirm-deposit.tsx:55-100 | the confirm button appears iff an Emily URL is configured, both requests succeed and the heights are equal (both present or both absent) |
| ConfirmDeposit.AbsentHeightsPassSync | src/comps/reskin/deposit/confirm-deposit.tsx:72-96 | when neither answer carries a height the check passes with no notice and the button is shown; a height on one side only is a mismatch |
| ConfirmDeposit.ConfirmDepositStep.RunSyncQuery | src/comps/reskin/deposit/confirm-deposit.tsx:55-100 | the query's data is that verdict, and the store gains the out-of-sync notice exactly when the enabled query sees a mismatch |
| ConfirmDeposit.LockTimeOf | src/comps/reskin/deposit/confirm-deposit.tsx:129 | an absent or empty setting gives 144; otherwise `parseInt` of the setting |
| ConfirmDeposit.UserKeys | src/comps/reskin/deposit/confirm-deposit.tsx:125 | the musig users' keys, in order |
| ConfirmDeposit.ReclaimSelection | src/comps/reskin/deposit/confirm-deposit.tsx:117-126 | without a payment address, or for Asigna without musig data, it throws; otherwise the keys are [payment key] with threshold 1, or for Asigna the users' keys in order with the musig threshold |
| ConfirmDeposit.DropTwo | src/comps/reskin/deposit/confirm-deposit.tsx:110 | `slice(2)`: the aggregate key without its first two characters |
| ConfirmDeposit.PlanOf | src/comps/reskin/deposit/confirm-deposit.tsx:110-157 | the pre-send steps succeed iff the aggregate key, the recipient's serialization and the reclaim selection do; then the plan holds that selection and lock time, hex texts that read back to the reclaim and deposit scripts the builders return, and as recipient the deposit address built from the serialized principal, the aggregate key without its first two characters, the max fee, that lock time, the wallet network and that selection |
| ConfirmDeposit.BuildPlan | src/comps/reskin/deposit/confirm-deposit.tsx:110-157 | the step-by-step code, with its Asigna overwrite of the defaults, computes exactly that plan |
| ConfirmDeposit.SentTxId | src/comps/reskin/deposit/confirm-deposit.tsx:177-194 | no wallet: txid ""; Asigna: always "Function not implemented."; any other wallet: its own send's result |
| ConfirmDeposit.SendCallsOf | src/comps/reskin/deposit/confirm-deposit.tsx:162-194 | at most one send is made: exactly one, to the selected wallet with the deposit address, amount and network, iff a wallet is selected and the plan was built |
| ConfirmDeposit.ConfirmDepositStep.SendWithWallet | src/comps/reskin/deposit/confirm-deposit.tsx:177-194 | the dispatch records one call for a selected wallet and none otherwise, and yields that txid |
| ConfirmDeposit.NextClickOf | src/comps/reskin/deposit/confirm-deposit.tsx:108-249 | the handler aborts with the plan's error iff the plan fails, and fails with the send's error iff the plan is built and the send fails; otherwise Emily gets the sent txid, output index 0 and the plan's two scripts, and a thrown or non-ok answer is told apart from an ok one |
| ConfirmDeposit.EmilyRequestsOf | src/comps/reskin/deposit/confirm-deposit.tsx:208-216 | one Emily request exactly when the send succeeded, carrying that ending's payload |
| ConfirmDeposit.ConfirmedCalls | src/comps/reskin/deposit/confirm-deposit.tsx:228-236 | an accepted deposit calls `setStep(REVIEW)` and then `handleUpdatingTransactionInfo` with the txid and an empty hex |
| ConfirmDeposit.FlowCallsOf | src/comps/reskin/deposit/confirm-deposit.tsx:219-236 | the parent's callbacks are called iff the deposit completed, and then with those two calls |
| ConfirmDeposit.NoticesOf | src/comps/reskin/deposit/confirm-deposit.tsx:195-247 | every ending shows at least one notice, and the last one is a success iff the deposit completed |
| ConfirmDeposit.EmilyOnlyAfterSend | src/comps/reskin/deposit/confirm-deposit.tsx:195-216 | Emily is called only after a successful send, with the sent txid, output index 0 and the plan's two scripts |
| ConfirmDeposit.SendFailureStopsFlow | src/comps/reskin/deposit/confirm-deposit.tsx:195-206 | a failed send shows "Issue with Transaction <error>" and nothing else; Emily is not called |
| ConfirmDeposit.DepositedIff | src/comps/reskin/deposit/confirm-deposit.tsx:219-236 | the deposit completes iff the plan is built, the send returns a txid and Emily answers ok |
| ConfirmDeposit.AsignaNeverDeposits | src/comps/reskin/deposit/confirm-deposit.tsx:187-193 | an Asigna wallet never completes a deposit and never reaches Emily |
| ConfirmDeposit.ConfirmDepositStep.NotifyEmily | src/comps/reskin/deposit/confirm-deposit.tsx:208-236 | the request is logged; a non-ok answer gives the two error notices and a thrown one the "Error while depositing funds" notice, and neither calls the parent; an ok answer gives the success notice and the two callback calls, to REVIEW and with the txid |
| ConfirmDeposit.ConfirmDepositStep.HandleNextClick | src/comps/reskin/deposit/confirm-deposit.tsx:108-249 | sends, Emily requests, notifications and the parent callback calls grow exactly as that ending prescribes; the callbacks are called, to REVIEW and with the sent txid, only on a completed deposit |
| ConfirmDeposit.ConfirmDepositStep.EditAmount | src/comps/reskin/deposit/confirm-deposit.tsx:270 | the amount pill calls `setStep(AMOUNT)` |
| ConfirmDeposit.ConfirmDepositStep.Back | src/comps/reskin/deposit/confirm-deposit.tsx:312 | BACK calls `setStep(ADDRESS)` |
| TxUtils.StatusTag | src/util/tx-utils.ts:14-27 | a record's status is exactly one of "pending", "accepted", "confirmed" |
| TxUtils.FulfillmentOf | src/util/tx-utils.ts:14-25 | a record carries a fulfillment iff it is confirmed |
| TxUtils.StatusRoundTrip | src/util/tx-utils.ts:14-27 | a status tag and a fulfillment field together determine the status: they are read back from every record, and they are valid exactly when a fulfillment comes with "confirmed" |
| TxUtils.EmilyDepositQuery | src/util/tx-utils.ts:44-46 | the query is bitcoinTxid then vout, with vout always "0" |
| TxUtils.EmilyDepositRequest | src/util/tx-utils.ts:47-52 | a GET with JSON content type to `/api/emilyDeposit` with that query |
| TxUtils.GetEmilyDepositInfo | src/util/tx-utils.ts:43-52 | the two `append` calls on a fresh `URLSearchParams` give exactly that request |
| TxUtils.EmilyDepositUrl | src/util/tx-utils.ts:44-47 | for a hex txid the URL is exactly `/api/emilyDeposit?bitcoinTxid=<txid>&vout=0` |
| TxUtils.SerializeTwoPairs | src/util/tx-utils.ts:47 | two pairs of unreserved text serialize as `a=b&c=d` |
| SearchParams.Get | src/comps/Deposit.tsx:90-91 | `get` finds a value iff the name occurs |
| SearchParams.SetParam | src/comps/Deposit.tsx:117-120 | after `set` the name occurs, and the list grows by at most one pair |
| SearchParams.GetSetParam | src/comps/Deposit.tsx:117-120 | after `set`, `get` of that name gives the new value and `get` of any other name is unchanged |
| SearchParams.SetParamFresh | src/comps/Deposit.tsx:117-120 | `set` of a name not yet present appends the pair |
| SearchParams.SetParamSingle | src/comps/Deposit.tsx:117-120 | after `set`, exactly one pair carries the name |
| SearchParams.UrlSearchParams.Set | src/comps/Deposit.tsx:117-120 | the object's pairs become the `set` of the old pairs |
| SearchParams.UrlSearchParams.Append | src/util/tx-utils.ts:45-46 | the pair is added at the end and nothing else changes |
| SearchParams.FormEncode | src/comps/Deposit.tsx:121 | text made only of unreserved characters is written unchanged |
| SearchParams.FormEncodeNoSeparators | src/comps/Deposit.tsx:121 | encoded names and values never contain `&` or `=`, so pairs cannot run together |
| SearchParams.Serialize | src/comps/Deposit.tsx:121 | the text is empty iff there are no pairs, and otherwise starts with the first pair, form-encoded, written as `name=value` |
| Js.NumberOfNatToString | src/comps/Deposit.tsx:118 | `Number(String(n))` is `n` for every natural `n` (the step written and read back) |
| Js.ParseIntNatToString | src/comps/reskin/deposit/confirm-deposit.tsx:129 | `parseInt(String(n))` is `n` for every natural `n` |
| Js.ParseInt | src/comps/reskin/deposit/confirm-deposit.tsx:129 | text without a digit is NaN; text starting with a digit gives a non-negative number |
| Js.NumberOf | src/comps/Deposit.tsx:82 | a missing value and "" give 0; any text holding a non-digit is NaN; every number it gives is non-negative |
| Js.ToLower | src/comps/Header.tsx:180 | lower-casing keeps the length and maps each character on its own |
| Atoms.Store.Notify | src/comps/Header.tsx:105-108 | a notification is appended to the shown list |

## Left out

- The deposit and reclaim scripts and the deposit (P2TR) address are opaque
  functions in `ConfirmDeposit.Builders`. The same holds for
  `serializeCVBytes(principalCV(_))` and `hexToBytes` from @stacks/common.
  They live in `@/util/depositRequest` and in libraries, and are not part of
  this model.
- The builders are treated as total functions. If one of them threw, the
  handler would report "Error while depositing funds"; that path is not
  modelled.
- `bitcoin.payments.p2wpkh` is an input function. When it returns an
  address, the address is its result. bitcoinjs-lib is not part of this
  model.
- Every `fetch`, `notify`, `router.push`, `TransportWebHID.create`,
  `getWalletPublicKey`, `getAggregateKey`, wallet send and `notifyEmily` call
  is an input `Result`/`Option` value or a recorded call.
  - `console` output is dropped.
  - Notification expiry times are dropped.
  - `t.close()` after a successful Ledger connection is not modelled.
- The sync query's caching, retries and refetching (react-query) are not
  modelled. So are `isPendingNotifyEmily` disabling the buttons and React
  rendering and styling. Views are reduced to datatypes naming what is shown.
- The wallet send implementations and `useEmilyDeposit`/`useDepositStatus`
  are not part of this model. The deposit status values are
  Pending/Accepted/Confirmed/Failed; only Failed matters here.
- `getStacksNetwork` is not part of this model. `RpcFor` takes its result.
- src/actions/bitcoinClient.ts, src/actions/get-sbtc-bridge-config.ts and
  next.config.js are HTTP wrappers, environment loading and build
  configuration. They are not part of this model.
- The commented-out elapsed-blocks warning in Deposit.tsx is dead code.
- Deposit.CheckAmount: amounts are exact reals, not IEEE doubles. The
  message texts are reduced to the number they name. yup's number casting
  is not modelled: an absent amount is the only "required" failure.
- Js.NumberOf: `Number()` is modelled for a missing value, "" and decimal
  digit strings; every other text counts as NaN. This is exact for the
  values the code writes (`String(3)`). Leading or trailing white space,
  signs, decimals and exponents are not modelled.
- Js.ParseInt: the "0x" prefix and radix detection are not modelled, and
  results are exact integers rather than doubles. Leading white space (the
  ECMAScript `StrWhiteSpaceChar` set), a sign and the longest digit prefix
  are modelled.
- Js.ToLower: ASCII letters only. This is exact for the "sbtcTestnet"
  comparison. Non-ASCII case mappings are not modelled.
- SearchParams.FormEncode: `toString` is modelled with the space-to-`+`
  rule and UTF-8 percent-encoding of every other non-unreserved character.
  Lone surrogates are not modelled. Only the unreserved identity and the
  absence of separators are proved.
- Deposit.ConfirmedQueryRestores: the round trip is at the level of query
  pairs. A push is recorded as the path and the pairs whose `toString`
  follows the `?`; the browser's parsing of that text back into pairs is not
  modelled.
- `./deposit-manager`, which gives the confirm step its `setStep` and
  `handleUpdatingTransactionInfo`, is not part of this model. The step
  records its calls of them; its `DEPOSIT_STEP` values are taken to be those
  of the `DEPOSIT_STEP` enum in src/comps/Deposit.tsx.
- Header.StacksAddress: requires that a selected software wallet has a
  Stacks address. The code dereferences it with `!` and would throw
  otherwise.
- ConfirmDeposit.ReclaimSelection: the texts of the TypeErrors thrown for a
  missing payment address or musig record are the engine's. The model fixes
  one text for each.
- Deposit.BtcAmount: the TypeError text for a response without outputs is
  likewise the engine's.
- `hexToBytes` of the Ledger's key string is folded into the device-key
  input of `Ledger.DeviceOutcomeOf`. Its behaviour on odd-length or non-hex
  text belongs to @stacks/common.
- Deposit.DepositFlow.step holds a step of the enum, since every write in
  the code stores one. `RenderStep` still takes any number.
