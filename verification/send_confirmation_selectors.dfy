/** Selectors of the send-confirmation scene: reading the stored spend
    request with fallbacks to the scene's initial state, and assembling the
    spend info handed to the wallet core from caller overrides merged over the
    stored request.

    JavaScript's `||` is modelled on its truthiness: a string field equal to
    "" is absent and falls back, while "0" is kept; an object field is absent
    only when missing (`None`), since an object, even an empty one, is truthy. */
module SendConfirmationSelectors {
  import opened Wrappers

  /** A value inside a metadata or custom-fee object. */
  datatype Scalar = Text(text: string) | Number(number: real)

  /** A plain object with scalar values. */
  type Record = map<string, Scalar>

  datatype SpendTarget = SpendTarget(nativeAmount: string, publicAddress: string)

  /** A partial spend request: the stored `parsedUri` and the caller's
      overrides. Every field is optional. */
  datatype GuiMakeSpendInfo = GuiMakeSpendInfo(
    currencyCode: string,
    networkFeeOption: string,
    publicAddress: string,
    metadata: Option<Record>,
    customNetworkFee: Option<Record>,
    nativeAmount: string,
    spendTargets: Option<seq<SpendTarget>>)

  /** The default argument `{}` of `getSpendInfo`. */
  const NoOverrides := GuiMakeSpendInfo("", "", "", None, None, "", None)

  datatype Transaction = Transaction(networkFee: string, parentNetworkFee: string)

  datatype SendConfirmationState = SendConfirmationState(
    pending: bool,
    isKeyboardVisible: bool,
    forceUpdateGuiCounter: int,
    transaction: Option<Transaction>,
    parsedUri: Option<GuiMakeSpendInfo>,
    error: Option<string>,
    isEditable: bool)

  /** The standard network-fee option; its spelling lives outside this
      module, only its being non-empty matters here. */
  const StandardFee := "standard"

  const InitialMetadata: Record := map[
    "payeeName" := Text(""),
    "category" := Text(""),
    "notes" := Text(""),
    "amountFiat" := Number(0.0),
    "bizId" := Number(0.0),
    "miscJson" := Text("")]

  const InitialParsedUri := GuiMakeSpendInfo(
    "", StandardFee, "", Some(InitialMetadata), Some(map[]), "0", None)

  const InitialState := SendConfirmationState(
    false, false, 0, None, Some(InitialParsedUri), None, true)

  /** The spend info given to the wallet core. */
  datatype EdgeSpendInfo = EdgeSpendInfo(
    currencyCode: string,
    metadata: Record,
    spendTargets: seq<SpendTarget>,
    networkFeeOption: string,
    customNetworkFee: Record)

  /** Why a selector throws: `getNativeAmount` found no `spendTargets[0]`, or
      the fee getters found no transaction. */
  datatype SelectorError = MissingSpendTarget | MissingTransaction

  /** JavaScript `a || b` on strings. */
  function OrElse(a: string, b: string): string {
    if a != "" then a else b
  }

  /** `{ ...base, ...top }`: every key of either, the top's value winning. */
  function Spread(base: Record, top: Record): (r: Record)
    ensures r.Keys == base.Keys + top.Keys
    ensures forall k :: k in top ==> r[k] == top[k]
    ensures forall k :: k in base && k !in top ==> r[k] == base[k]
  {
    base + top
  }

  /** Spreading the same base twice changes nothing. */
  lemma SpreadAbsorbs(base: Record, top: Record)
    ensures Spread(base, Spread(base, top)) == Spread(base, top)
  {
  }

  function GetTransaction(scene: SendConfirmationState): (r: Option<Transaction>)
    ensures r == scene.transaction
  {
    if scene.transaction.Some? then scene.transaction else InitialState.transaction
  }

  /** The stored spend request, or the initial one when none is stored. */
  function GetParsedUri(scene: SendConfirmationState): (r: GuiMakeSpendInfo)
    ensures scene.parsedUri.Some? ==> r == scene.parsedUri.value
    ensures scene.parsedUri.None? ==> r == InitialParsedUri
  {
    if scene.parsedUri.Some? then scene.parsedUri.value else InitialState.parsedUri.value
  }

  /** Never empty: the stored option, else the standard one. */
  function GetNetworkFeeOption(scene: SendConfirmationState): (r: string)
    ensures r != ""
    ensures GetParsedUri(scene).networkFeeOption != "" ==> r == GetParsedUri(scene).networkFeeOption
    ensures GetParsedUri(scene).networkFeeOption == "" ==> r == StandardFee
  {
    OrElse(OrElse(GetParsedUri(scene).networkFeeOption, InitialState.parsedUri.value.networkFeeOption), "")
  }

  /** The stored custom fee, else the empty object. */
  function GetCustomNetworkFee(scene: SendConfirmationState): (r: Record)
    ensures GetParsedUri(scene).customNetworkFee.Some? ==> r == GetParsedUri(scene).customNetworkFee.value
    ensures GetParsedUri(scene).customNetworkFee.None? ==> r == map[]
  {
    var stored := GetParsedUri(scene).customNetworkFee;
    if stored.Some? then stored.value
    else InitialState.parsedUri.value.customNetworkFee.GetOr(map[])
  }

  /** The stored metadata, else the initial metadata with every field blank. */
  function GetMetadata(scene: SendConfirmationState): (r: Record)
    ensures GetParsedUri(scene).metadata.Some? ==> r == GetParsedUri(scene).metadata.value
    ensures GetParsedUri(scene).metadata.None? ==> r == InitialMetadata
  {
    var stored := GetParsedUri(scene).metadata;
    if stored.Some? then stored.value
    else InitialState.parsedUri.value.metadata.GetOr(map[])
  }

  /** The stored address; both fallbacks are the empty string. */
  function GetPublicAddress(scene: SendConfirmationState): (r: string)
    ensures r == GetParsedUri(scene).publicAddress
  {
    OrElse(OrElse(GetParsedUri(scene).publicAddress, InitialState.parsedUri.value.publicAddress), "")
  }

  /** The stored amount, else the first spend target's; throws when neither
      is there to read. */
  function GetNativeAmount(scene: SendConfirmationState): (r: Result<string, SelectorError>)
    ensures var p := GetParsedUri(scene);
      r.Err? <==> p.nativeAmount == "" && (p.spendTargets.None? || |p.spendTargets.value| == 0)
    ensures var p := GetParsedUri(scene);
      p.nativeAmount != "" ==> r == Ok(p.nativeAmount)
    ensures var p := GetParsedUri(scene);
      p.nativeAmount == "" && r.Ok? ==> r.value == p.spendTargets.value[0].nativeAmount
  {
    var p := GetParsedUri(scene);
    if p.nativeAmount != "" then Ok(p.nativeAmount)
    else if p.spendTargets.Some? && |p.spendTargets.value| >= 1 then Ok(p.spendTargets.value[0].nativeAmount)
    else Err(MissingSpendTarget)
  }

  /** The stored transaction's fee; throws when there is no transaction. */
  function GetNetworkFee(scene: SendConfirmationState): (r: Result<string, SelectorError>)
    ensures r.Ok? <==> scene.transaction.Some?
    ensures r.Ok? ==> r.value == scene.transaction.value.networkFee
  {
    var t := GetTransaction(scene);
    if t.Some? then Ok(t.value.networkFee) else Err(MissingTransaction)
  }

  function GetParentNetworkFee(scene: SendConfirmationState): (r: Result<string, SelectorError>)
    ensures r.Ok? <==> scene.transaction.Some?
    ensures r.Ok? ==> r.value == scene.transaction.value.parentNetworkFee
  {
    var t := GetTransaction(scene);
    if t.Some? then Ok(t.value.parentNetworkFee) else Err(MissingTransaction)
  }

  /** The spend info for the stored request with the caller's overrides:
      each override that is present wins, metadata and custom fee merge one
      level deep, and there is always exactly one spend target. It throws
      only when no amount is overridden and none can be read. */
  function GetSpendInfo(scene: SendConfirmationState, selectedCurrencyCode: string, o: GuiMakeSpendInfo): (r: Result<EdgeSpendInfo, SelectorError>)
    ensures r.Err? <==> o.nativeAmount == "" && GetNativeAmount(scene).Err?
    ensures r.Ok? ==> |r.value.spendTargets| == 1
    ensures r.Ok? ==> (r.value.spendTargets[0].nativeAmount ==
      (if o.nativeAmount != "" then o.nativeAmount else GetNativeAmount(scene).value))
    ensures r.Ok? ==> (r.value.spendTargets[0].publicAddress ==
      (if o.publicAddress != "" then o.publicAddress else GetPublicAddress(scene)))
    ensures r.Ok? ==> (r.value.currencyCode ==
      (if o.currencyCode != "" then o.currencyCode else selectedCurrencyCode))
    ensures r.Ok? ==> (r.value.networkFeeOption ==
      (if o.networkFeeOption != "" then o.networkFeeOption else GetNetworkFeeOption(scene)))
    ensures r.Ok? ==> (r.value.metadata ==
      (if o.metadata.Some? then Spread(GetMetadata(scene), o.metadata.value) else GetMetadata(scene)))
    ensures r.Ok? ==> (r.value.customNetworkFee ==
      (if o.customNetworkFee.Some? then Spread(GetCustomNetworkFee(scene), o.customNetworkFee.value) else GetCustomNetworkFee(scene)))
  {
    var amount := if o.nativeAmount != "" then Ok(o.nativeAmount) else GetNativeAmount(scene);
    if amount.Err? then Err(amount.error)
    else
      Ok(EdgeSpendInfo(
        OrElse(o.currencyCode, selectedCurrencyCode),
        if o.metadata.Some? then Spread(GetMetadata(scene), o.metadata.value) else GetMetadata(scene),
        [SpendTarget(amount.value, OrElse(o.publicAddress, GetPublicAddress(scene)))],
        OrElse(o.networkFeeOption, GetNetworkFeeOption(scene)),
        if o.customNetworkFee.Some? then Spread(GetCustomNetworkFee(scene), o.customNetworkFee.value) else GetCustomNetworkFee(scene)))
  }

  /** Without overrides every field is the stored getter's value. */
  lemma NoOverridesReadsStore(scene: SendConfirmationState, selectedCurrencyCode: string)
    ensures GetNativeAmount(scene).Err? ==> GetSpendInfo(scene, selectedCurrencyCode, NoOverrides).Err?
    ensures GetNativeAmount(scene).Ok? ==>
      GetSpendInfo(scene, selectedCurrencyCode, NoOverrides) == Ok(EdgeSpendInfo(
        selectedCurrencyCode,
        GetMetadata(scene),
        [SpendTarget(GetNativeAmount(scene).value, GetPublicAddress(scene))],
        GetNetworkFeeOption(scene),
        GetCustomNetworkFee(scene)))
  {
  }

  /** With nothing stored, the initial request supplies amount "0", an empty
      address, the standard fee option, an empty custom fee and blank
      metadata. */
  lemma InitialDefaults(scene: SendConfirmationState)
    requires scene.parsedUri.None?
    ensures GetNativeAmount(scene) == Ok("0")
    ensures GetPublicAddress(scene) == ""
    ensures GetNetworkFeeOption(scene) == StandardFee
    ensures GetCustomNetworkFee(scene) == map[]
    ensures GetMetadata(scene) == InitialMetadata
  {
  }

  /** A spend info read back as overrides: its single target supplies the
      amount and the address, everything else field by field. */
  function AsOverrides(info: EdgeSpendInfo): (o: GuiMakeSpendInfo)
    requires |info.spendTargets| == 1
    ensures o.nativeAmount == info.spendTargets[0].nativeAmount
    ensures o.publicAddress == info.spendTargets[0].publicAddress
    ensures o.metadata == Some(info.metadata) && o.customNetworkFee == Some(info.customNetworkFee)
  {
    GuiMakeSpendInfo(
      info.currencyCode, info.networkFeeOption, info.spendTargets[0].publicAddress,
      Some(info.metadata), Some(info.customNetworkFee), info.spendTargets[0].nativeAmount,
      Some(info.spendTargets))
  }

  /** Assembly is idempotent: feeding an assembled spend info back in as the
      overrides, over the same store, yields it again. */
  lemma GetSpendInfoIdempotent(scene: SendConfirmationState, selectedCurrencyCode: string, o: GuiMakeSpendInfo)
    requires GetSpendInfo(scene, selectedCurrencyCode, o).Ok?
    ensures var info := GetSpendInfo(scene, selectedCurrencyCode, o).value;
      GetSpendInfo(scene, selectedCurrencyCode, AsOverrides(info)) == Ok(info)
  {
    var info := GetSpendInfo(scene, selectedCurrencyCode, o).value;
    var again := GetSpendInfo(scene, selectedCurrencyCode, AsOverrides(info));
    if o.metadata.Some? {
      SpreadAbsorbs(GetMetadata(scene), o.metadata.value);
    } else {
      assert Spread(GetMetadata(scene), GetMetadata(scene)) == GetMetadata(scene);
    }
    if o.customNetworkFee.Some? {
      SpreadAbsorbs(GetCustomNetworkFee(scene), o.customNetworkFee.value);
    } else {
      assert Spread(GetCustomNetworkFee(scene), GetCustomNetworkFee(scene)) == GetCustomNetworkFee(scene);
    }
    assert again.value.metadata == info.metadata;
    assert again.value.customNetworkFee == info.customNetworkFee;
  }

  /** A spend info held verbatim as the stored request: it has no top-level
      amount or address, only its spend targets. */
  function AsStoredRequest(info: EdgeSpendInfo): GuiMakeSpendInfo {
    GuiMakeSpendInfo(
      info.currencyCode, info.networkFeeOption, "", Some(info.metadata),
      Some(info.customNetworkFee), "", Some(info.spendTargets))
  }

  /** Idempotence does not hold in the other reading, with the assembled
      spend info stored as the request and re-assembled with `{}`: the address
      getter reads the request's own `publicAddress` and never
      `spendTargets[0]`, so the address is lost, and the currency code is the
      selected wallet's rather than the stored one. */
  lemma StoredSpendInfoIsNotReassembled()
    ensures var o := NoOverrides.(nativeAmount := "500000", publicAddress := "1xyz");
      var info := GetSpendInfo(InitialState, "BTC", o);
      var stored := InitialState.(parsedUri := Some(AsStoredRequest(info.value)));
      && info.Ok? && info.value.spendTargets[0].publicAddress == "1xyz"
      && GetSpendInfo(stored, "BTC", NoOverrides).Ok?
      && GetSpendInfo(stored, "BTC", NoOverrides).value.spendTargets[0].publicAddress == ""
      && GetSpendInfo(stored, "BTC", NoOverrides) != info
      && GetSpendInfo(stored, "ETH", NoOverrides).value.currencyCode == "ETH"
  {
    var o := NoOverrides.(nativeAmount := "500000", publicAddress := "1xyz");
    var info := GetSpendInfo(InitialState, "BTC", o);
    var stored := InitialState.(parsedUri := Some(AsStoredRequest(info.value)));
    assert GetPublicAddress(stored) == "";
    assert GetNativeAmount(stored) == Ok("500000");
  }
}
