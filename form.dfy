/** The reusable one-field form of the deposit flow (src/comps/core/Form.tsx):
    which wallet it needs, what its connect button says, the latch that
    remembers the field was edited, the note shown before editing, how a
    submit handler's answer becomes a field error, and the initial values of
    the many-field variant. */
module Form {
  import opened Wrappers
  import opened Atoms

  datatype RequiredConnection = Btc | Stx | Both

  /** `requiredConnection = "btc"` */
  function EffectiveConnection(prop: Option<RequiredConnection>): (r: RequiredConnection)
    ensures prop.None? ==> r == Btc
    ensures prop.Some? ==> r == prop.value
  {
    prop.GetOr(Btc)
  }

  /** `isConnected`: "btc" needs a payment address, "stx" a Stacks address,
      "both" needs the two. */
  function IsConnected(required: RequiredConnection, addresses: Addresses): (r: bool)
    ensures r <==> (required != Stx ==> HasAddress(addresses.payment)) &&
                   (required != Btc ==> HasAddress(addresses.stacks))
  {
    match required
    case Btc => HasAddress(addresses.payment)
    case Stx => HasAddress(addresses.stacks)
    case Both => HasAddress(addresses.payment) && HasAddress(addresses.stacks)
  }

  const ConnectBitcoin: string := "Connect Bitcoin wallet"
  const ConnectStacks: string := "Connect Stacks wallet"
  const ConnectAny: string := "Connect wallet"

  /** `connectText` */
  function ConnectText(required: RequiredConnection, addresses: Addresses): (r: string)
    ensures r == ConnectBitcoin <==> required == Btc && !HasAddress(addresses.payment)
    ensures r == ConnectStacks <==> required == Stx && !HasAddress(addresses.stacks)
    ensures r in {ConnectBitcoin, ConnectStacks, ConnectAny}
  {
    if required == Btc && !HasAddress(addresses.payment) then ConnectBitcoin
    else if required == Stx && !HasAddress(addresses.stacks) then ConnectStacks
    else ConnectAny
  }

  /** The connect button is shown only while the form is not connected; then
      its text names the missing wallet, except for "both", which always gets
      the generic text. */
  lemma ConnectTextNamesMissingWallet(required: RequiredConnection, addresses: Addresses)
    requires !IsConnected(required, addresses)
    ensures required == Btc ==> ConnectText(required, addresses) == ConnectBitcoin
    ensures required == Stx ==> ConnectText(required, addresses) == ConnectStacks
    ensures required == Both ==> ConnectText(required, addresses) == ConnectAny
  {
  }

  /** Whether `initialNote` is rendered, and if so whether it is visible. */
  datatype NoteView = NoNote | Note(visible: bool)

  /** The note is visible iff the field was never edited and an initial value
      is given (truthy: present and non-empty). */
  function NoteViewOf(initialNote: Option<string>, dirty: bool, initialValue: Option<string>): (v: NoteView)
    ensures v.NoNote? <==> initialNote.None? || initialNote.value == ""
    ensures v.Note? ==> (v.visible <==> !dirty && initialValue.Some? && initialValue.value != "")
  {
    if initialNote.None? || initialNote.value == "" then NoNote
    else Note(!dirty && initialValue.Some? && initialValue.value != "")
  }

  /** NEXT is disabled iff the form is invalid or the `disabled` prop is set. */
  function NextDisabled(isValid: bool, disabled: bool): (r: bool)
    ensures !r <==> isValid && !disabled
  {
    !isValid || disabled
  }

  /** What `handleSubmit` resolves to: nothing, or a string. */
  datatype SubmitAnswer = NoAnswer | Text(s: string)

  /** The state `FlowForm` keeps of its field. */
  class FlowFormState {
    const nameKey: string
    var dirty: bool
    var touched: map<string, bool>
    var errors: map<string, string>

    constructor (nameKey: string)
      ensures this.nameKey == nameKey && !dirty && touched == map[] && errors == map[]
    {
      this.nameKey := nameKey;
      dirty := false;
      touched := map[];
      errors := map[];
    }

    /** The effect that copies Formik's `dirty` into the latch until it is set. */
    method DirtyEffect(formikDirty: bool)
      modifies this`dirty
      ensures dirty == (old(dirty) || formikDirty)
      ensures old(dirty) ==> dirty
    {
      if !dirty {
        dirty := formikDirty;
      }
    }

    /** `onSubmit`: a non-empty string answer marks the field touched and
        becomes the form's only error; any other answer changes nothing. */
    method Submit(answer: SubmitAnswer)
      modifies this`touched, this`errors
      ensures answer.Text? && answer.s != "" ==>
                touched == old(touched)[nameKey := true] && errors == map[nameKey := answer.s]
      ensures !(answer.Text? && answer.s != "") ==> touched == old(touched) && errors == old(errors)
    {
      if answer.Text? && answer.s != "" {
        touched := touched[nameKey := true];
        errors := map[nameKey := answer.s];
      }
    }
  }

  /** Once the field has been edited, the note is never visible again. */
  lemma NoteHiddenAfterEdit(initialNote: Option<string>, initialValue: Option<string>)
    ensures NoteViewOf(initialNote, true, initialValue) in {NoNote, Note(false)}
  {
  }

  datatype NameKeyInfo = NameKeyInfo(nameKey: string, initValue: string, placeholder: string)

  /** Assigning a string to `__proto__` of a plain object is ignored. */
  const ProtoKey: string := "__proto__"

  /** `nameKeys[i]` is the last entry with its name among the first `n`. */
  predicate IsLastOfName(nameKeys: seq<NameKeyInfo>, i: int, n: int)
    requires 0 <= i < n <= |nameKeys|
  {
    forall j :: i < j < n ==> nameKeys[j].nameKey != nameKeys[i].nameKey
  }

  /** The `reduce` that builds `FlowFormDynamic`'s initial values: every
      name maps to its initial value, and a later entry with the same name
      overrides an earlier one. */
  method DynamicInitialValues(nameKeys: seq<NameKeyInfo>) returns (acc: map<string, string>)
    ensures forall k :: k in acc <==> k != ProtoKey && exists i :: 0 <= i < |nameKeys| && nameKeys[i].nameKey == k
    ensures forall i :: 0 <= i < |nameKeys| && nameKeys[i].nameKey != ProtoKey && IsLastOfName(nameKeys, i, |nameKeys|) ==>
              acc[nameKeys[i].nameKey] == nameKeys[i].initValue
  {
    acc := map[];
    var n := 0;
    while n < |nameKeys|
      invariant 0 <= n <= |nameKeys|
      invariant forall k :: k in acc <==> k != ProtoKey && exists i :: 0 <= i < n && nameKeys[i].nameKey == k
      invariant forall i :: 0 <= i < n && nameKeys[i].nameKey != ProtoKey && IsLastOfName(nameKeys, i, n) ==>
                  acc[nameKeys[i].nameKey] == nameKeys[i].initValue
    {
      var entry := nameKeys[n];
      if entry.nameKey != ProtoKey {
        acc := acc[entry.nameKey := entry.initValue];
      }
      n := n + 1;
    }
  }
}
