# Payment-URI intake and send-confirmation decisions of a wallet GUI

This project models the three pieces of decision logic in the wallet's
presentation layer and proves their contracts in Dafny.

- **Scan scene** (`scan_actions.dfy`, module `ScanActions`). The four predicates
  classify a parsed payment URI: token, legacy address, private key, or
  payment protocol (BIP 70). `Classify` picks the first one that holds, in
  the order the success handler tests them, and falls back to a plain public
  address. The class `ScanScene` holds `scanEnabled`, the stored `parsedUri`
  and a log of everything the scene does. The log records dispatched actions,
  navigations, deferred callbacks, calls into the wallet core's parser and
  the invalid-address alert. Each thunk is a method. It appends exactly the
  events of a pure effects function of its inputs. The scene's invariant
  `Valid()` says that its state is the scan reducer replayed over the
  dispatched actions in the log.
- **Spend-info selectors** (`send_confirmation_selectors.dfy`, module
  `SendConfirmationSelectors`). These are pure functions. Each `get*`
  selector falls back to the scene's initial state. `GetSpendInfo` merges
  the caller's overrides over the stored request and always builds exactly
  one spend target. `metadata` and `customNetworkFee` merge one level deep.
  JavaScript `||` is modelled on truthiness: an empty string falls back, but
  `"0"` is kept.
- **Send-confirmation screen** (`send_confirmation_ui.dfy`, module
  `SendConfirmationUi`). `NetworkFeeSyntax` chooses the fee line's path: the
  parent-chain fee, the primary fee, or nothing. It also chooses the
  denomination, multiplier and currency codes that feed the line. The module
  also holds the fiat exchange-code choice, the unique-identifier label and
  the PIN-focus condition. The class `SendConfirmationComponent` holds the
  component state that the lifecycle methods update.
- `wrappers.dfy` (module `Wrappers`) holds `Option` and `Result`.

Conventions:

- A string field equal to `""` stands for a missing one. Both are falsy in
  the source.
- An object-valued field is `Option`, because an empty object is still
  truthy.
- A base-unit fee is the integer its decimal string spells. `bns.gt`
  compares amounts that way.

External calls are parameters of the model:

- `isEdgeLogin`, `denominationToDecimalPlaces`, `getDenomFromIsoCode` and
  `bns.div` are function-valued fields set by the constructors.
- `getSelectedCurrencyCode` is an argument of `GetSpendInfo`.
- The wallet core's parser is seen only through its two promise handlers,
  `OnParseSucceeded` and `OnParseFailed`.

Behaviours of the code a reader may not expect:

- On a parse failure the code dispatches `disableScan`, not `enableScan`.
  Scanning comes back only when the deferred alert's OK button dispatches
  `enableScan`.
- Cancelling the legacy-address modal does not clear the stored `parsedUri`.
- The token's decimal places come from `denominationToDecimalPlaces`. That
  helper is not part of this model, so it is a parameter.
- Spend-info assembly is idempotent when an assembled spend info is fed
  back in as the overrides (`GetSpendInfoIdempotent`). It is not when the
  spend info is stored as the request and re-assembled with `{}`
  (`StoredSpendInfoIsNotReassembled`).
- The selected wallet is read when `parseUri` is called, and the success
  handler uses that id even if another wallet has been selected since.

## Model

| member | source | states |
|---|---|---|
| `ScanActions.Classify` | src/modules/UI/scenes/Scan/action.js:80-119 | The branch taken is one whose test holds, and every branch the handler tests earlier fails: precedence token > legacy address > private key > payment protocol > public address. The tests are the predicates of lines 172-186: a private key needs at least one key, and a payment-protocol URI needs a URL and no public address. |
| `ScanActions.ClassifyIsUnique` | src/modules/UI/scenes/Scan/action.js:80-119 | Exactly one follow-up: any branch whose test holds while all earlier tests fail is the one chosen. |
| `ScanActions.ToUpperCase` | src/modules/UI/scenes/Scan/action.js:83 | Upper-casing keeps the length, leaves no lower-case letter and changes no other character. |
| `ScanActions.ToUpperCaseIdempotent` | src/modules/UI/scenes/Scan/action.js:83 | An upper-case code is unchanged, so upper-casing twice is upper-casing once. |
| `ScanActions.AddTokenParamsOf` | src/modules/UI/scenes/Scan/action.js:82-97 | Add-token parameters: the currency code is upper-cased. Decimal places are 18 without a multiplier, else `denominationToDecimalPlaces(multiplier)`. Contract address, name and multiplier are copied, and the wallet id is the selected one. |
| `ScanActions.FollowUp` | src/modules/UI/scenes/Scan/action.js:80-119 | The follow-up, given by the handler's tests in order: a token URI navigates to add-token; otherwise a legacy address defers the legacy-address modal by 500 ms; otherwise a private key defers the private-key modal; otherwise a payment-protocol URI dispatches the payment request; anything else opens send confirmation and stores the URI. No follow-up dispatches an action that changes the scan state. |
| `ScanActions.ReplayScanNeutral` | src/modules/UI/scenes/Scan/action.js:80-119 | Events that dispatch neither `enableScan`, `disableScan` nor `parseUriSucceeded` leave the scan state as it was. |
| `ScanActions.OnlyEnableScanEnables` | src/modules/UI/scenes/Scan/action.js:32-44 | Once scanning is off, only an `ENABLE_SCAN` dispatch turns it back on. |
| `ScanActions.ParseSucceededState` | src/modules/UI/scenes/Scan/action.js:76-120 | After a successful parse the URI is stored and the flag is as before. No branch re-enables scanning. |
| `ScanActions.ParseFailedState` | src/modules/UI/scenes/Scan/action.js:121-131 | A rejected parse turns scanning off. Neither the handler nor the alert it defers dispatches `enableScan`, and the alert's OK turns scanning back on. |
| `ScanActions.LegacyAddressConfirmed` | src/modules/UI/scenes/Scan/action.js:135-148 | For a legacy-address URI the URI is stored. Continue then reads the stored URI and opens send confirmation with it. The scan flag is left as it was, which is off after a scan. |
| `ScanActions.ScanScene.ParseUri` | src/modules/UI/scenes/Scan/action.js:63-75 | Empty text does nothing. Edge-login text dispatches `loginWithEdge` and navigates to the login scene without calling the parser. Any other text goes to the parser with the wallet selected at this call. The scan state is unchanged. |
| `ScanActions.ScanScene.QrCodeScanned` | src/modules/UI/scenes/Scan/action.js:150-157 | With scanning off nothing happens. Otherwise `disableScan` is dispatched and then `parseUri(data)` runs, even for empty text. |
| `ScanActions.ScanScene.AddressModalDoneButtonPressed` | src/modules/UI/scenes/Scan/action.js:159-161 | Manual entry runs `parseUri(data)` without reading or changing the flag. |
| `ScanActions.ScanScene.OnParseSucceeded` | src/modules/UI/scenes/Scan/action.js:66-120 | Possible only after the parser was called with the given wallet selected. `parseUriSucceeded` is dispatched first, then exactly the follow-up of `FollowUp`, built with the wallet id read when the parser was called. The URI is stored and the flag is unchanged. |
| `ScanActions.ScanScene.OnParseFailed` | src/modules/UI/scenes/Scan/action.js:121-131 | `disableScan` is dispatched and the invalid-address alert is deferred by 500 ms. Scanning is off afterwards. |
| `ScanActions.ScanScene.InvalidAddressAlertOkPressed` | src/modules/UI/scenes/Scan/action.js:126-128 | The alert's OK, possible only once the alert was shown, dispatches `enableScan`. |
| `ScanActions.ScanScene.LegacyAddressModalContinueButtonPressed` | src/modules/UI/scenes/Scan/action.js:135-148 | Possible only once the modal was activated. The modal is deactivated, then a deferred step runs with the stored URI read before deactivation. The scan state is unchanged. |
| `ScanActions.ScanScene.LegacyAddressModalCancelButtonPressed` | src/modules/UI/scenes/Scan/action.js:167-170 | Possible only once the modal was activated. The modal is deactivated, then `enableScan` is dispatched. The stored URI stays. |
| `ScanActions.ScanScene.RunTask` | src/modules/UI/scenes/Scan/action.js:101-147 | A scheduled callback fires. The modal callbacks activate their modal, and the alert callback shows the alert. The continue step re-enables scanning when no URI was stored, else it opens send confirmation with that URI. |
| `ScanActions.ScanComesBackOnlyThroughEnableScan` | src/modules/UI/scenes/Scan/action.js:121-131 | In a valid scene, if scanning was off after some prefix of the log and is on now, an `enableScan` was dispatched after that prefix. After a failed parse this is the alert's OK or a later cancel or continue. |
| `SendConfirmationSelectors.Spread` | src/modules/UI/scenes/SendConfirmation/selectors.js:72 | `{...stored, ...override}`: the keys of both, override values winning, every other stored key kept. |
| `SendConfirmationSelectors.SpreadAbsorbs` | src/modules/UI/scenes/SendConfirmation/selectors.js:72 | Merging over the same stored object twice is merging once. |
| `SendConfirmationSelectors.GetTransaction` | src/modules/UI/scenes/SendConfirmation/selectors.js:57 | The fallback to the initial `null` transaction leaves the stored one. |
| `SendConfirmationSelectors.GetParsedUri` | src/modules/UI/scenes/SendConfirmation/selectors.js:58 | The stored request, else the initial one. |
| `SendConfirmationSelectors.GetNetworkFeeOption` | src/modules/UI/scenes/SendConfirmation/selectors.js:61 | Never empty: the stored option, else the standard fee. |
| `SendConfirmationSelectors.GetCustomNetworkFee` | src/modules/UI/scenes/SendConfirmation/selectors.js:62 | The stored custom fee, else the empty object. |
| `SendConfirmationSelectors.GetMetadata` | src/modules/UI/scenes/SendConfirmation/selectors.js:63 | The stored metadata, else the initial blank metadata. |
| `SendConfirmationSelectors.GetPublicAddress` | src/modules/UI/scenes/SendConfirmation/selectors.js:64 | The stored address. Both fallbacks are `''`. |
| `SendConfirmationSelectors.GetNativeAmount` | src/modules/UI/scenes/SendConfirmation/selectors.js:65 | The request's own non-empty amount, else `spendTargets[0].nativeAmount`. It fails exactly when the amount is empty and there is no first target. |
| `SendConfirmationSelectors.GetNetworkFee` | src/modules/UI/scenes/SendConfirmation/selectors.js:67 | The transaction's fee. It fails exactly when there is no transaction. |
| `SendConfirmationSelectors.GetParentNetworkFee` | src/modules/UI/scenes/SendConfirmation/selectors.js:68 | The transaction's parent fee. It fails exactly when there is no transaction. |
| `SendConfirmationSelectors.GetSpendInfo` | src/modules/UI/scenes/SendConfirmation/selectors.js:70-81 | There is exactly one spend target. Amount, address, currency code and fee option are each the override when non-empty, else the stored value. Metadata and custom fee are merged over the stored ones when overridden. It fails only when no amount is overridden and none can be read. |
| `SendConfirmationSelectors.NoOverridesReadsStore` | src/modules/UI/scenes/SendConfirmation/selectors.js:70-81 | With the default `{}` every field is the stored getter's value and the currency code is the selected one. |
| `SendConfirmationSelectors.InitialDefaults` | src/modules/UI/scenes/SendConfirmation/selectors.js:29-50 | With nothing stored: amount `'0'`, address `''`, the standard fee option, empty custom fee and blank metadata. |
| `SendConfirmationSelectors.GetSpendInfoIdempotent` | src/modules/UI/scenes/SendConfirmation/selectors.js:70-81 | An assembled spend info fed back as the overrides assembles to itself. |
| `SendConfirmationSelectors.StoredSpendInfoIsNotReassembled` | src/modules/UI/scenes/SendConfirmation/selectors.js:64-81 | With amount `"500000"` and address `"1xyz"` overridden over the initial state, storing the result as the request and re-assembling it with `{}` gives an empty address and so a different spend info. The currency code then comes from the selected wallet. |
| `SendConfirmationUi.SymbolOrEmpty` | src/modules/UI/scenes/SendConfirmation/SendConfirmation.ui.js:291 | A missing or empty symbol becomes the empty prefix, and any other symbol is kept. |
| `SendConfirmationUi.ExchangeCurrencyCode` | src/modules/UI/scenes/SendConfirmation/SendConfirmation.ui.js:275-281 | The secondary exchange code, unless it is `''` and the secondary denomination has a currency code; then the denomination's name. |
| `SendConfirmationUi.NetworkFeeSyntax` | src/modules/UI/scenes/SendConfirmation/SendConfirmation.ui.js:264-324 | There is a fee line exactly when some fee is strictly positive, and its fee is positive. A positive parent fee takes the parent path: parent display symbol, parent exchange multiplier and name. Otherwise a positive fee takes the primary path: primary display symbol, primary exchange multiplier and `currencyCode`. Both paths use the fiat symbol and the chosen exchange code. |
| `SendConfirmationUi.ZeroParentFeeFallsThrough` | src/modules/UI/scenes/SendConfirmation/SendConfirmation.ui.js:290-321 | A parent fee of `'0'` with a positive fee gives the primary path, and the parent denominations do not affect the result. |
| `SendConfirmationUi.UniqueIdentifierText` | src/modules/UI/scenes/SendConfirmation/SendConfirmation.ui.js:327-333 | XRP gets the destination-tag label and XMR the payment-id label. Every other code gets the generic label, and the identifier is kept. |
| `SendConfirmationUi.FocusPinNotTwiceInARow` | src/modules/UI/scenes/SendConfirmation/SendConfirmation.ui.js:108-112 | The PIN-focus condition never holds on two updates in a row, because it needs the previous destination to be empty. |
| `SendConfirmationUi.SendConfirmationComponent.constructor` | src/modules/UI/scenes/SendConfirmation/SendConfirmation.ui.js:83-97 | The initial component state: blank secondary denomination with multiplier `'1'`, empty override amount, counter 0, keyboard hidden, amount from props. |
| `SendConfirmationUi.SendConfirmationComponent.ComponentWillMount` | src/modules/UI/scenes/SendConfirmation/SendConfirmation.ui.js:99-101 | The keyboard is visible exactly when the route data is `'fromScan'`. Nothing else changes. |
| `SendConfirmationUi.SendConfirmationComponent.ComponentDidMount` | src/modules/UI/scenes/SendConfirmation/SendConfirmation.ui.js:102-106 | The fiat denomination comes from the fiat code and the override amount from the amount and multiplier. This makes the fiat denomination current. |
| `SendConfirmationUi.SendConfirmationComponent.ComponentWillReceiveProps` | src/modules/UI/scenes/SendConfirmation/SendConfirmation.ui.js:114-125 | Override amount and counter change only when the counter differs, and the fiat denomination only when the fiat code changes. No other field changes. Afterwards the counter equals the props' counter, and a current fiat denomination stays current. |

## Left out

- Rendering, layout, style sheets (`src/modules/UI/components/Slider/styles.js`) and `src/actions/indexActions.js`: they only copy arguments into action objects.
- The wallet core's `parseUri`: its answer reaches the model only through `OnParseSucceeded` and `OnParseFailed`. The handlers may run any time after the parser was called; other events in between are allowed.
- The `edgeWallet` and `guiWallet` lookups of `parseUri`: `ParserCalled` carries the selected wallet id instead. The store's wallet selection is not modelled; the id selected at each call is an argument of `ParseUri`, `QrCodeScanned` and `AddressModalDoneButtonPressed`.
- The `wallet` and `onAddToken` entries of the add-token parameters. They are the selected GUI wallet object and a no-op.
- Timing of `setTimeout(500)` and `setImmediate`: deferred callbacks are logged as `Scheduled` events with their delay, and `RunTask` runs any scheduled one. No clock and no cancellation are modelled.
- `Alert.alert`, router navigation and `loginWithEdge`: they are logged events. `loginWithEdge` is assumed not to change the scan state.
- The scan reducer is not part of this model. Only `ENABLE_SCAN`, `DISABLE_SCAN` and `PARSE_URI_SUCCEEDED` are taken to change `scanEnabled` or `parsedUri`, as their names say.
- `toggleEnableTorch`, `toggleAddressModal`, `parseUriFailed` and `parseUriReset` only build action objects. `addressModalCancelButtonPressed` has an empty body.
- `getScene`, `getPending`, `getError`, `getKeyboardIsVisible` and `getForceUpdateGuiCounter` are plain field reads. `getKeyboardIsVisible` reads `keyboardIsVisible` while the initial state names the field `isKeyboardVisible`. The reducer that decides which name is stored is not part of this model.
- `getSelectedCurrencyCode` and `getSceneState` are not part of this model. `GetSpendInfo` takes the selected currency code as an argument and reads the scene state directly.
- `STANDARD_FEE` is defined in a constants file that is not part of this model. Its value is taken as `"standard"`, and the proofs use only that it is non-empty.
- ToUpperCase: upper-cases ASCII letters only, because JavaScript's full Unicode case mapping (which can change a string's length) is not modelled.
- Fee and amount strings are assumed to be base-unit decimal integers. `bns` is an outside library, and its behaviour on other strings is not modelled.
- GetSpendInfoIdempotent: proves idempotence only with the assembled spend info fed back as the overrides. Stored as the request and re-assembled with `{}`, it is not given back. `getPublicAddress` (selectors.js:64) reads the request's own `publicAddress` and never `spendTargets[0]`, and the currency code comes from the selected wallet (selectors.js:71). `StoredSpendInfoIsNotReassembled` shows an input where this happens.
- Metadata and custom-fee objects hold only scalar values (text or number); nested objects are not modelled.
- Formatting of the fee line is not modelled: `convertNativeToDisplay`, `convertNativeToExchange`, `currencyConverter.convertCurrency`, the float `toFixed(2)` and `bns.toFixed`, `sprintf`, `intl.formatNumber` and the string tables. `NetworkFeeSyntax` returns the inputs those calls would receive.
- `render`, the fee-row and unique-identifier-row visibility conditions, `handleChangePin`, `onExchangeAmountChanged`, `componentWillUnmount` and the PIN input's focus and blur are not modelled. `ShouldFocusPin` keeps only the condition from `componentDidUpdate`.
