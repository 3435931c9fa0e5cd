/** Decisions of the send-confirmation screen: which fee (parent chain or
    primary) the fee line shows and with which denomination, multiplier and
    currency codes; which exchange code the fiat side uses; which label the
    unique identifier gets; and how the component's own state follows new
    props.

    Formatting is not modelled: native-to-display and native-to-exchange
    conversion, the currency converter, `sprintf` and the string tables are
    outside. A fee line is therefore the record of the inputs those would
    receive. Native amounts are the integers their decimal strings denote,
    which is how `bns.gt` compares them. */
module SendConfirmationUi {
  import opened Wrappers

  /** A fee prop: `null` or "" (absent), else the base-unit integer it spells. */
  datatype NativeAmount = Absent | Amount(units: int)

  /** JavaScript truthiness of the prop: "0" is truthy. */
  predicate IsPresent(a: NativeAmount) {
    a.Amount?
  }

  /** `a && bns.gt(a, '0')`. */
  predicate IsPositive(a: NativeAmount) {
    a.Amount? && a.units > 0
  }

  /** A display or exchange denomination; `symbol` and `currencyCode` are
      optional in the wallet's types. */
  datatype Denomination = Denomination(
    name: string,
    multiplier: string,
    symbol: Option<string>,
    currencyCode: Option<string>)

  predicate IsTruthy(o: Option<string>) {
    o.Some? && o.value != ""
  }

  /** `symbol ? symbol : ''`. */
  function SymbolOrEmpty(o: Option<string>): (r: string)
    ensures IsTruthy(o) ==> r == o.value
    ensures !IsTruthy(o) ==> r == ""
  {
    if IsTruthy(o) then o.value else ""
  }

  datatype AuthRequired = PinRequired | NoAuth

  /** The props the modelled decisions read. */
  datatype Props = Props(
    fiatCurrencyCode: string,
    currencyCode: string,
    nativeAmount: string,
    parentNetworkFee: NativeAmount,
    networkFee: NativeAmount,
    parentDisplayDenomination: Denomination,
    parentExchangeDenomination: Denomination,
    primaryDisplayDenomination: Denomination,
    primaryExchangeDenomination: Denomination,
    secondaryExchangeCurrencyCode: string,
    forceUpdateGuiCounter: int,
    destination: string,
    authRequired: AuthRequired)

  /** The fiat side's exchange code: the prop, unless it is empty and the
      secondary denomination has a currency code, in which case the
      denomination's name. */
  function ExchangeCurrencyCode(props: Props, secondary: Denomination): (r: string)
    ensures props.secondaryExchangeCurrencyCode != "" ==> r == props.secondaryExchangeCurrencyCode
    ensures props.secondaryExchangeCurrencyCode == "" && IsTruthy(secondary.currencyCode) ==> r == secondary.name
    ensures props.secondaryExchangeCurrencyCode == "" && !IsTruthy(secondary.currencyCode) ==> r == ""
  {
    var code := props.secondaryExchangeCurrencyCode;
    if code == "" && IsTruthy(secondary.currencyCode) then secondary.name else code
  }

  datatype FeePath = ParentChain | PrimaryChain

  /** What the fee line shows: nothing (the empty string), or the fee in base
      units with the symbol, the multiplier that converts it for display and
      for exchange, the codes the currency converter is called with, and the
      fiat symbol. */
  datatype FeeLine =
    | NoFeeLine
    | FeeLine(
        path: FeePath,
        nativeFee: int,
        cryptoSymbol: string,
        cryptoMultiplier: string,
        fromCurrencyCode: string,
        toCurrencyCode: string,
        fiatSymbol: string)

  /** `networkFeeSyntax`: a strictly positive parent-chain fee wins, then a
      strictly positive primary fee, else nothing. */
  function NetworkFeeSyntax(props: Props, secondary: Denomination): (r: FeeLine)
    ensures r.FeeLine? <==> IsPositive(props.parentNetworkFee) || IsPositive(props.networkFee)
    ensures r.FeeLine? ==> r.nativeFee > 0
    ensures r.FeeLine? ==> r.fiatSymbol == SymbolOrEmpty(secondary.symbol)
    ensures r.FeeLine? ==> r.toCurrencyCode == ExchangeCurrencyCode(props, secondary)
    ensures IsPositive(props.parentNetworkFee) ==>
      && r.FeeLine? && r.path == ParentChain
      && r.nativeFee == props.parentNetworkFee.units
      && r.cryptoSymbol == SymbolOrEmpty(props.parentDisplayDenomination.symbol)
      && r.cryptoMultiplier == props.parentExchangeDenomination.multiplier
      && r.fromCurrencyCode == props.parentExchangeDenomination.name
    ensures !IsPositive(props.parentNetworkFee) && IsPositive(props.networkFee) ==>
      && r.FeeLine? && r.path == PrimaryChain
      && r.nativeFee == props.networkFee.units
      && r.cryptoSymbol == SymbolOrEmpty(props.primaryDisplayDenomination.symbol)
      && r.cryptoMultiplier == props.primaryExchangeDenomination.multiplier
      && r.fromCurrencyCode == props.currencyCode
  {
    var networkFee, parentNetworkFee := props.networkFee, props.parentNetworkFee;
    if !IsPresent(networkFee) && !IsPresent(parentNetworkFee) then NoFeeLine
    else
      var exchangeCode := ExchangeCurrencyCode(props, secondary);
      var fiatSymbol := SymbolOrEmpty(secondary.symbol);
      if IsPositive(parentNetworkFee) then
        FeeLine(ParentChain, parentNetworkFee.units,
          SymbolOrEmpty(props.parentDisplayDenomination.symbol),
          props.parentExchangeDenomination.multiplier,
          props.parentExchangeDenomination.name, exchangeCode, fiatSymbol)
      else if IsPositive(networkFee) then
        FeeLine(PrimaryChain, networkFee.units,
          SymbolOrEmpty(props.primaryDisplayDenomination.symbol),
          props.primaryExchangeDenomination.multiplier,
          props.currencyCode, exchangeCode, fiatSymbol)
      else NoFeeLine
  }

  /** A zero parent-chain fee counts as no parent fee: the primary fee is
      shown, and the parent denomination is not consulted. */
  lemma ZeroParentFeeFallsThrough(props: Props, secondary: Denomination, parentDisplay: Denomination, parentExchange: Denomination)
    requires props.parentNetworkFee == Amount(0) && IsPositive(props.networkFee)
    ensures var r := NetworkFeeSyntax(props, secondary);
      r.FeeLine? && r.path == PrimaryChain && r.nativeFee == props.networkFee.units
    ensures NetworkFeeSyntax(props, secondary) ==
      NetworkFeeSyntax(props.(parentDisplayDenomination := parentDisplay, parentExchangeDenomination := parentExchange), secondary)
  {
  }

  /** The label a unique identifier is shown with. */
  datatype IdentifierLabel = DestinationTag | PaymentId | GenericIdentifier

  datatype UniqueIdentifierLine = UniqueIdentifierLine(kind: IdentifierLabel, identifier: string)

  /** `uniqueIdentifierText`: XRP says destination tag, XMR says payment id,
      every other currency the generic label; the identifier is shown as
      given. */
  function UniqueIdentifierText(currencyCode: string, uniqueIdentifier: string): (r: UniqueIdentifierLine)
    ensures r.identifier == uniqueIdentifier
    ensures r.kind == DestinationTag <==> currencyCode == "XRP"
    ensures r.kind == PaymentId <==> currencyCode == "XMR"
    ensures r.kind == GenericIdentifier <==> currencyCode != "XRP" && currencyCode != "XMR"
  {
    var kind := if currencyCode == "XRP" then DestinationTag
      else if currencyCode == "XMR" then PaymentId
      else GenericIdentifier;
    UniqueIdentifierLine(kind, uniqueIdentifier)
  }

  /** `componentDidUpdate`'s condition for focusing the PIN input: a
      destination has just appeared, a PIN is required and the amount is not
      "0". */
  predicate ShouldFocusPin(prevProps: Props, props: Props) {
    && prevProps.destination == ""
    && props.destination != ""
    && props.authRequired != NoAuth
    && props.nativeAmount != "0"
  }

  /** The PIN input is focused at most once per appearance of a destination:
      never on two updates in a row. */
  lemma FocusPinNotTwiceInARow(a: Props, b: Props, c: Props)
    ensures ShouldFocusPin(a, b) ==> !ShouldFocusPin(b, c)
  {
  }

  /** The component's own state, its current props, and the two external
      helpers its lifecycle methods call: `getDenomFromIsoCode`, and
      `bns.div(nativeAmount, multiplier, 18)` as `exchangeAmountOf`. */
  class SendConfirmationComponent {
    var props: Props
    var secondaryDisplayDenomination: Denomination
    var nativeAmount: string
    var overridePrimaryExchangeAmount: string
    var forceUpdateGuiCounter: int
    var keyboardVisible: bool
    const getDenomFromIsoCode: string -> Denomination
    const exchangeAmountOf: (string, string) -> string

    /** The fiat denomination is the one for the current fiat code. */
    ghost predicate FiatDenominationCurrent()
      reads this
    {
      secondaryDisplayDenomination == getDenomFromIsoCode(props.fiatCurrencyCode)
    }

    constructor (initialProps: Props, denomFromIsoCode: string -> Denomination, divide: (string, string) -> string)
      ensures props == initialProps && nativeAmount == initialProps.nativeAmount
      ensures secondaryDisplayDenomination == Denomination("", "1", Some(""), None)
      ensures overridePrimaryExchangeAmount == "" && forceUpdateGuiCounter == 0 && !keyboardVisible
      ensures getDenomFromIsoCode == denomFromIsoCode && exchangeAmountOf == divide
    {
      props := initialProps;
      secondaryDisplayDenomination := Denomination("", "1", Some(""), None);
      overridePrimaryExchangeAmount := "";
      keyboardVisible := false;
      forceUpdateGuiCounter := 0;
      nativeAmount := initialProps.nativeAmount;
      getDenomFromIsoCode := denomFromIsoCode;
      exchangeAmountOf := divide;
    }

    /** `componentWillMount`: the keyboard opens when the scene was reached
        from the scanner. */
    method ComponentWillMount(routeData: string)
      modifies this
      ensures keyboardVisible == (routeData == "fromScan")
      ensures props == old(props) && secondaryDisplayDenomination == old(secondaryDisplayDenomination)
      ensures nativeAmount == old(nativeAmount) && overridePrimaryExchangeAmount == old(overridePrimaryExchangeAmount)
      ensures forceUpdateGuiCounter == old(forceUpdateGuiCounter)
    {
      keyboardVisible := routeData == "fromScan";
    }

    /** `componentDidMount`: the fiat denomination and the exchange amount are
        taken from the props. */
    method ComponentDidMount()
      modifies this
      ensures FiatDenominationCurrent()
      ensures secondaryDisplayDenomination == getDenomFromIsoCode(props.fiatCurrencyCode)
      ensures overridePrimaryExchangeAmount == exchangeAmountOf(props.nativeAmount, props.primaryExchangeDenomination.multiplier)
      ensures props == old(props) && nativeAmount == old(nativeAmount)
      ensures forceUpdateGuiCounter == old(forceUpdateGuiCounter) && keyboardVisible == old(keyboardVisible)
    {
      secondaryDisplayDenomination := getDenomFromIsoCode(props.fiatCurrencyCode);
      overridePrimaryExchangeAmount := exchangeAmountOf(props.nativeAmount, props.primaryExchangeDenomination.multiplier);
    }

    /** `componentWillReceiveProps`, followed by the framework installing the
        new props. The exchange amount and counter change only when the
        counter differs, the fiat denomination only when the fiat code
        changes, and nothing else. Afterwards the state's counter equals the
        props' and a current fiat denomination stays current. */
    method ComponentWillReceiveProps(nextProps: Props)
      modifies this
      ensures nextProps.forceUpdateGuiCounter != old(forceUpdateGuiCounter) ==>
        overridePrimaryExchangeAmount == exchangeAmountOf(nextProps.nativeAmount, nextProps.primaryExchangeDenomination.multiplier)
      ensures nextProps.forceUpdateGuiCounter == old(forceUpdateGuiCounter) ==>
        overridePrimaryExchangeAmount == old(overridePrimaryExchangeAmount)
      ensures forceUpdateGuiCounter == nextProps.forceUpdateGuiCounter
      ensures nextProps.fiatCurrencyCode != old(props.fiatCurrencyCode) ==>
        secondaryDisplayDenomination == getDenomFromIsoCode(nextProps.fiatCurrencyCode)
      ensures nextProps.fiatCurrencyCode == old(props.fiatCurrencyCode) ==>
        secondaryDisplayDenomination == old(secondaryDisplayDenomination)
      ensures old(FiatDenominationCurrent()) ==> FiatDenominationCurrent()
      ensures nativeAmount == old(nativeAmount) && keyboardVisible == old(keyboardVisible)
      ensures props == nextProps
    {
      if nextProps.forceUpdateGuiCounter != forceUpdateGuiCounter {
        overridePrimaryExchangeAmount := exchangeAmountOf(nextProps.nativeAmount, nextProps.primaryExchangeDenomination.multiplier);
        forceUpdateGuiCounter := nextProps.forceUpdateGuiCounter;
      }
      if nextProps.fiatCurrencyCode != props.fiatCurrencyCode {
        secondaryDisplayDenomination := getDenomFromIsoCode(nextProps.fiatCurrencyCode);
      }
      props := nextProps;
    }
  }
}
