/** The scan scene's action creators: how a scanned or typed payment URI is
    classified and routed, and how the scene's `scanEnabled` flag and stored
    `parsedUri` evolve while that happens.

    External collaborators (the wallet core's URI parser, the edge-login
    recogniser, the denomination-to-decimal-places helper) are not modelled:
    the recogniser and the helper are functions handed to the scene, and the
    parser's answer arrives through the two handler methods of `ScanScene`. */
module ScanActions {
  import opened Wrappers

  // ---------------------------------------------------------------------------
  // Parsed URIs and their classification
  // ---------------------------------------------------------------------------

  /** The token a URI asks to add; a missing string field is "". */
  datatype TokenInfo = TokenInfo(
    contractAddress: string,
    currencyCode: string,
    currencyName: string,
    multiplier: string)

  /** The fields of the wallet core's parsed URI that the scene reads. A
      string field equal to "" stands for a missing one: both are falsy. */
  datatype ParsedUri = ParsedUri(
    publicAddress: string,
    legacyAddress: string,
    privateKeys: Option<seq<string>>,
    paymentProtocolURL: string,
    token: Option<TokenInfo>)

  predicate IsTokenUri(p: ParsedUri) {
    p.token.Some?
  }

  predicate IsLegacyAddressUri(p: ParsedUri) {
    p.legacyAddress != ""
  }

  predicate IsPrivateKeyUri(p: ParsedUri) {
    p.privateKeys.Some? && |p.privateKeys.value| >= 1
  }

  /** A payment-protocol (BIP 70) request: a request URL and no address. */
  predicate IsPaymentProtocolUri(p: ParsedUri) {
    p.paymentProtocolURL != "" && p.publicAddress == ""
  }

  /** The five branches of the parse-success handler. */
  datatype UriKind = Token | LegacyAddress | PrivateKey | PaymentProtocol | PublicAddress

  /** The test that selects each branch; the public-address branch is the
      fall-through and accepts everything. */
  predicate Matches(k: UriKind, p: ParsedUri) {
    match k
    case Token => IsTokenUri(p)
    case LegacyAddress => IsLegacyAddressUri(p)
    case PrivateKey => IsPrivateKeyUri(p)
    case PaymentProtocol => IsPaymentProtocolUri(p)
    case PublicAddress => true
  }

  /** Position of each branch in the handler: earlier branches win. */
  function Rank(k: UriKind): nat {
    match k
    case Token => 0
    case LegacyAddress => 1
    case PrivateKey => 2
    case PaymentProtocol => 3
    case PublicAddress => 4
  }

  /** The branch the success handler takes: the first one, in handler order,
      whose test holds. */
  function Classify(p: ParsedUri): (k: UriKind)
    ensures Matches(k, p)
    ensures forall j :: Rank(j) < Rank(k) ==> !Matches(j, p)
  {
    if IsTokenUri(p) then Token
    else if IsLegacyAddressUri(p) then LegacyAddress
    else if IsPrivateKeyUri(p) then PrivateKey
    else if IsPaymentProtocolUri(p) then PaymentProtocol
    else PublicAddress
  }

  /** Exactly one branch is taken: any branch whose test holds while every
      earlier test fails is the one `Classify` picks. */
  lemma ClassifyIsUnique(p: ParsedUri, k: UriKind)
    requires Matches(k, p)
    requires forall j :: Rank(j) < Rank(k) ==> !Matches(j, p)
    ensures k == Classify(p)
  {
  }

  // ---------------------------------------------------------------------------
  // Upper-casing of token currency codes
  // ---------------------------------------------------------------------------

  predicate IsLower(c: char) {
    'a' <= c <= 'z'
  }

  function UpperChar(c: char): char {
    if IsLower(c) then (c as int - 32) as char else c
  }

  predicate HasNoLowerCase(s: string) {
    forall i :: 0 <= i < |s| ==> !IsLower(s[i])
  }

  /** `String.prototype.toUpperCase` on ASCII letters: same length, no
      lower-case letter left, every other character kept. */
  function ToUpperCase(s: string): (r: string)
    ensures |r| == |s|
    ensures HasNoLowerCase(r)
    ensures forall i :: 0 <= i < |s| && !IsLower(s[i]) ==> r[i] == s[i]
    ensures forall i :: 0 <= i < |s| && IsLower(s[i]) ==> r[i] as int == s[i] as int - 32
  {
    if s == [] then [] else [UpperChar(s[0])] + ToUpperCase(s[1..])
  }

  /** Upper-casing leaves an upper-case code as it is, so it is idempotent. */
  lemma ToUpperCaseIdempotent(s: string)
    ensures HasNoLowerCase(s) ==> ToUpperCase(s) == s
    ensures ToUpperCase(ToUpperCase(s)) == ToUpperCase(s)
  {
  }

  // ---------------------------------------------------------------------------
  // Actions, navigation and the event log
  // ---------------------------------------------------------------------------

  /** Redux actions the scene dispatches. */
  datatype Action =
    | EnableScan
    | DisableScan
    | ParseUriSucceeded(parsedUri: ParsedUri)
    | LoginWithEdge(uri: string)
    | LegacyAddressModalActivated
    | LegacyAddressModalDeactivated
    | PrivateKeyModalActivated
    | PaymentProtocolUriReceived(parsedUri: ParsedUri)
    | UpdateParsedUri(parsedUri: ParsedUri)

  /** Parameters handed to the add-token scene. */
  datatype AddTokenParams = AddTokenParams(
    contractAddress: string,
    currencyCode: string,
    currencyName: string,
    multiplier: string,
    decimalPlaces: int,
    walletId: string)

  /** Router destinations. */
  datatype Scene = EdgeLoginScene | AddTokenScene(params: AddTokenParams) | SendConfirmationScene(origin: string)

  /** `setTimeout(…, ms)` or `setImmediate(…)`. */
  datatype Timer = Timeout(ms: nat) | Immediate

  /** Callbacks the scene defers. `ContinueWithParsedUri` carries the stored
      `parsedUri` the continue button read before it deferred the work. */
  datatype Task =
    | ActivateLegacyAddressModal
    | ActivatePrivateKeyModal
    | ShowInvalidAddressAlert
    | ContinueWithParsedUri(captured: Option<ParsedUri>)

  /** Everything the scene does that an observer can see, in order. */
  datatype Event =
    | Dispatched(action: Action)
    | Navigated(scene: Scene)
    | Scheduled(timer: Timer, task: Task)
    | ParserCalled(walletId: string, data: string)
    | InvalidAddressAlertShown

  const ModalDelay: nat := 500

  /** The add-token parameters of a token URI: the currency code upper-cased,
      18 decimal places unless a multiplier is given, the rest copied. */
  function AddTokenParamsOf(t: TokenInfo, walletId: string, decimalPlacesOf: string -> int): (r: AddTokenParams)
    ensures r.currencyCode == ToUpperCase(t.currencyCode) && HasNoLowerCase(r.currencyCode)
    ensures t.multiplier == "" ==> r.decimalPlaces == 18
    ensures t.multiplier != "" ==> r.decimalPlaces == decimalPlacesOf(t.multiplier)
    ensures r.contractAddress == t.contractAddress && r.currencyName == t.currencyName
    ensures r.multiplier == t.multiplier && r.walletId == walletId
  {
    var decimalPlaces := if t.multiplier != "" then decimalPlacesOf(t.multiplier) else 18;
    AddTokenParams(t.contractAddress, ToUpperCase(t.currencyCode), t.currencyName, t.multiplier, decimalPlaces, walletId)
  }

  /** Opening send confirmation with a parsed URI. */
  function OpenSendConfirmation(p: ParsedUri): seq<Event> {
    [Navigated(SendConfirmationScene("fromScan")), Dispatched(UpdateParsedUri(p))]
  }

  /** The actions the scan reducer reacts to. */
  predicate ChangesScanState(a: Action) {
    a == EnableScan || a == DisableScan || a.ParseUriSucceeded?
  }

  /** No event of `events` dispatches an action the scan reducer reacts to. */
  predicate ScanNeutral(events: seq<Event>) {
    forall i :: 0 <= i < |events| && events[i].Dispatched? ==> !ChangesScanState(events[i].action)
  }

  /** The follow-up of a successful parse, chosen by `Classify`: the handler
      tests token, legacy address, private key and payment protocol in that
      order and falls through to a plain address. No follow-up touches the
      scan state. */
  function FollowUp(p: ParsedUri, walletId: string, decimalPlacesOf: string -> int): (r: seq<Event>)
    ensures IsTokenUri(p) ==>
      r == [Navigated(AddTokenScene(AddTokenParamsOf(p.token.value, walletId, decimalPlacesOf)))]
    ensures !IsTokenUri(p) && IsLegacyAddressUri(p) ==>
      r == [Scheduled(Timeout(ModalDelay), ActivateLegacyAddressModal)]
    ensures !IsTokenUri(p) && !IsLegacyAddressUri(p) && IsPrivateKeyUri(p) ==>
      r == [Scheduled(Timeout(ModalDelay), ActivatePrivateKeyModal)]
    ensures !IsTokenUri(p) && !IsLegacyAddressUri(p) && !IsPrivateKeyUri(p) && IsPaymentProtocolUri(p) ==>
      r == [Dispatched(PaymentProtocolUriReceived(p))]
    ensures !IsTokenUri(p) && !IsLegacyAddressUri(p) && !IsPrivateKeyUri(p) && !IsPaymentProtocolUri(p) ==>
      r == OpenSendConfirmation(p)
    ensures ScanNeutral(r)
  {
    match Classify(p)
    case Token => [Navigated(AddTokenScene(AddTokenParamsOf(p.token.value, walletId, decimalPlacesOf)))]
    case LegacyAddress => [Scheduled(Timeout(ModalDelay), ActivateLegacyAddressModal)]
    case PrivateKey => [Scheduled(Timeout(ModalDelay), ActivatePrivateKeyModal)]
    case PaymentProtocol => [Dispatched(PaymentProtocolUriReceived(p))]
    case PublicAddress => OpenSendConfirmation(p)
  }

  // ---------------------------------------------------------------------------
  // Effects of each action creator
  // ---------------------------------------------------------------------------

  /** `parseUri(data)` up to the call into the wallet core. */
  function ParseUriEffects(data: string, walletId: string, isEdgeLoginUri: bool): seq<Event> {
    if data == "" then []
    else if isEdgeLoginUri then [Dispatched(LoginWithEdge(data)), Navigated(EdgeLoginScene)]
    else [ParserCalled(walletId, data)]
  }

  /** `qrCodeScanned(data)`, given the flag it reads. */
  function QrCodeScannedEffects(scanEnabled: bool, data: string, walletId: string, isEdgeLoginUri: bool): seq<Event> {
    if !scanEnabled then [] else [Dispatched(DisableScan)] + ParseUriEffects(data, walletId, isEdgeLoginUri)
  }

  /** The success handler of the parser's promise. */
  function ParseSucceededEffects(p: ParsedUri, walletId: string, decimalPlacesOf: string -> int): seq<Event> {
    [Dispatched(ParseUriSucceeded(p))] + FollowUp(p, walletId, decimalPlacesOf)
  }

  /** The failure handler of the parser's promise. */
  function ParseFailedEffects(): seq<Event> {
    [Dispatched(DisableScan), Scheduled(Timeout(ModalDelay), ShowInvalidAddressAlert)]
  }

  function LegacyContinueEffects(stored: Option<ParsedUri>): seq<Event> {
    [Dispatched(LegacyAddressModalDeactivated), Scheduled(Immediate, ContinueWithParsedUri(stored))]
  }

  function LegacyCancelEffects(): seq<Event> {
    [Dispatched(LegacyAddressModalDeactivated), Dispatched(EnableScan)]
  }

  /** What a deferred callback does when it fires. */
  function TaskEffects(t: Task): seq<Event> {
    match t
    case ActivateLegacyAddressModal => [Dispatched(LegacyAddressModalActivated)]
    case ActivatePrivateKeyModal => [Dispatched(PrivateKeyModalActivated)]
    case ShowInvalidAddressAlert => [InvalidAddressAlertShown]
    case ContinueWithParsedUri(None) => [Dispatched(EnableScan)]
    case ContinueWithParsedUri(Some(p)) => OpenSendConfirmation(p)
  }

  // ---------------------------------------------------------------------------
  // The scan reducer, replayed over the log
  // ---------------------------------------------------------------------------

  datatype ScanState = ScanState(scanEnabled: bool, parsedUri: Option<ParsedUri>)

  /** The scan scene's reducer, as far as the action names say: only
      ENABLE_SCAN, DISABLE_SCAN and PARSE_URI_SUCCEEDED change its state. */
  function Reduce(s: ScanState, a: Action): ScanState {
    match a
    case EnableScan => s.(scanEnabled := true)
    case DisableScan => s.(scanEnabled := false)
    case ParseUriSucceeded(p) => s.(parsedUri := Some(p))
    case _ => s
  }

  /** The state reached from `s` by the actions dispatched in `events`. */
  function Replay(s: ScanState, events: seq<Event>): ScanState
    decreases |events|
  {
    if events == [] then s
    else Replay(if events[0].Dispatched? then Reduce(s, events[0].action) else s, events[1..])
  }

  lemma {:induction false} ReplayAppend(s: ScanState, a: seq<Event>, b: seq<Event>)
    ensures Replay(s, a + b) == Replay(Replay(s, a), b)
    decreases |a|
  {
    if a == [] {
      assert a + b == b;
    } else {
      assert (a + b)[0] == a[0];
      assert (a + b)[1..] == a[1..] + b;
      ReplayAppend(if a[0].Dispatched? then Reduce(s, a[0].action) else s, a[1..], b);
    }
  }

  /** Once scanning is off, the only way it comes back on is an ENABLE_SCAN
      dispatch. */
  lemma {:induction false} OnlyEnableScanEnables(s: ScanState, events: seq<Event>)
    requires !s.scanEnabled && Replay(s, events).scanEnabled
    ensures Dispatched(EnableScan) in events
    decreases |events|
  {
    if events[0] != Dispatched(EnableScan) {
      var next := if events[0].Dispatched? then Reduce(s, events[0].action) else s;
      assert !next.scanEnabled;
      OnlyEnableScanEnables(next, events[1..]);
      assert events == [events[0]] + events[1..];
    }
  }

  /** Events that dispatch nothing the reducer reacts to leave the state as
      it was. */
  lemma {:induction false} ReplayScanNeutral(s: ScanState, events: seq<Event>)
    requires ScanNeutral(events)
    ensures Replay(s, events) == s
    decreases |events|
  {
    if events != [] {
      assert ScanNeutral(events[1..]) by {
        forall i | 0 <= i < |events[1..]| && events[1..][i].Dispatched?
          ensures !ChangesScanState(events[1..][i].action)
        {
          assert events[1..][i] == events[i + 1];
        }
      }
      ReplayScanNeutral(s, events[1..]);
      if events[0].Dispatched? {
        assert !ChangesScanState(events[0].action);
      }
    }
  }

  /** After a successful parse the URI is stored and the flag is as it was:
      no branch re-enables scanning. */
  lemma {:induction false} ParseSucceededState(s: ScanState, p: ParsedUri, walletId: string, decimalPlacesOf: string -> int)
    ensures Replay(s, ParseSucceededEffects(p, walletId, decimalPlacesOf)) == s.(parsedUri := Some(p))
  {
    var head := [Dispatched(ParseUriSucceeded(p))];
    var rest := FollowUp(p, walletId, decimalPlacesOf);
    ReplayAppend(s, head, rest);
    assert Replay(s, head) == s.(parsedUri := Some(p)) by {
      assert head[1..] == [];
    }
    ReplayScanNeutral(s.(parsedUri := Some(p)), rest);
  }

  /** A rejected parse leaves scanning off, and neither the handler nor the
      alert it defers turns it back on: that takes the alert's OK button. */
  lemma {:induction false} ParseFailedState(s: ScanState)
    ensures var flow := ParseFailedEffects() + TaskEffects(ShowInvalidAddressAlert);
      Replay(s, flow) == s.(scanEnabled := false) && Dispatched(EnableScan) !in flow
    ensures var flow := ParseFailedEffects() + TaskEffects(ShowInvalidAddressAlert);
      Replay(s, flow + [Dispatched(EnableScan)]) == s.(scanEnabled := true)
  {
    var flow := ParseFailedEffects() + TaskEffects(ShowInvalidAddressAlert);
    var off := s.(scanEnabled := false);
    assert flow == [Dispatched(DisableScan), Scheduled(Timeout(ModalDelay), ShowInvalidAddressAlert), InvalidAddressAlertShown];
    assert Replay(s, flow) == Replay(off, flow[1..]);
    assert Replay(off, flow[1..]) == Replay(off, flow[2..]);
    assert Replay(off, flow[2..]) == Replay(off, flow[3..]);
    assert flow[3..] == [];
    ReplayAppend(s, flow, [Dispatched(EnableScan)]);
    assert [Dispatched(EnableScan)][1..] == [];
  }

  /** A legacy-address URI that the user confirms: the URI is stored, the
      modal is deferred, and continuing opens send confirmation with the
      stored URI while scanning stays off. */
  lemma {:induction false} LegacyAddressConfirmed(s: ScanState, p: ParsedUri, walletId: string, decimalPlacesOf: string -> int)
    requires Classify(p) == LegacyAddress
    ensures var parsed := ParseSucceededEffects(p, walletId, decimalPlacesOf) + TaskEffects(ActivateLegacyAddressModal);
      var stored := Replay(s, parsed).parsedUri;
      var continued := LegacyContinueEffects(stored) + TaskEffects(ContinueWithParsedUri(stored));
      && stored == Some(p)
      && Replay(s, parsed + continued) == s.(parsedUri := Some(p))
      && continued[2..] == OpenSendConfirmation(p)
  {
    var parsed := ParseSucceededEffects(p, walletId, decimalPlacesOf) + TaskEffects(ActivateLegacyAddressModal);
    var t := s.(parsedUri := Some(p));
    ParseSucceededState(s, p, walletId, decimalPlacesOf);
    ReplayAppend(s, ParseSucceededEffects(p, walletId, decimalPlacesOf), TaskEffects(ActivateLegacyAddressModal));
    assert TaskEffects(ActivateLegacyAddressModal)[1..] == [];
    assert Replay(s, parsed) == t;
    var continued := LegacyContinueEffects(Some(p)) + TaskEffects(ContinueWithParsedUri(Some(p)));
    assert continued == [Dispatched(LegacyAddressModalDeactivated), Scheduled(Immediate, ContinueWithParsedUri(Some(p))),
      Navigated(SendConfirmationScene("fromScan")), Dispatched(UpdateParsedUri(p))];
    assert Replay(t, continued) == Replay(t, continued[1..]);
    assert Replay(t, continued[1..]) == Replay(t, continued[2..]);
    assert Replay(t, continued[2..]) == Replay(t, continued[3..]);
    assert Replay(t, continued[3..]) == Replay(t, continued[4..]);
    assert continued[4..] == [];
    ReplayAppend(s, parsed, continued);
  }

  // ---------------------------------------------------------------------------
  // The scene
  // ---------------------------------------------------------------------------

  /** The scan scene: the slice of the store it owns, and the log of what it
      has done. `start` is the state before the first logged event. The
      selected wallet is read from the store at each call, so the action
      creators take it as an argument. */
  class ScanScene {
    var scanEnabled: bool
    var parsedUri: Option<ParsedUri>
    var log: seq<Event>
    const start: ScanState
    const isEdgeLogin: string -> bool
    const denominationToDecimalPlaces: string -> int

    function State(): ScanState
      reads this
    {
      ScanState(scanEnabled, parsedUri)
    }

    /** The scene's state is what the reducer makes of the dispatched actions. */
    ghost predicate Valid()
      reads this
    {
      State() == Replay(start, log)
    }

    ghost predicate IsScheduled(t: Task)
      reads this
    {
      exists i :: 0 <= i < |log| && log[i].Scheduled? && log[i].task == t
    }

    ghost predicate ParserWasCalled()
      reads this
    {
      exists i :: 0 <= i < |log| && log[i].ParserCalled?
    }

    /** The parser was called for a text while `walletId` was selected. */
    ghost predicate ParserWasCalledFor(walletId: string)
      reads this
    {
      exists i :: 0 <= i < |log| && log[i].ParserCalled? && log[i].walletId == walletId
    }

    constructor (initial: ScanState, edgeLogin: string -> bool, decimalPlacesOf: string -> int)
      ensures Valid() && State() == initial && log == []
      ensures start == initial
      ensures isEdgeLogin == edgeLogin && denominationToDecimalPlaces == decimalPlacesOf
    {
      scanEnabled, parsedUri := initial.scanEnabled, initial.parsedUri;
      log := [];
      start := initial;
      isEdgeLogin := edgeLogin;
      denominationToDecimalPlaces := decimalPlacesOf;
    }

    /** Records one event; a dispatched action goes through the reducer. */
    method Emit(e: Event)
      requires Valid()
      modifies this
      ensures Valid()
      ensures log == old(log) + [e]
      ensures State() == Replay(old(State()), [e])
    {
      ghost var before := State();
      if e.Dispatched? {
        var next := Reduce(State(), e.action);
        scanEnabled, parsedUri := next.scanEnabled, next.parsedUri;
      }
      log := log + [e];
      assert [e][1..] == [];
      assert State() == Replay(before, [e]);
      ReplayAppend(start, old(log), [e]);
    }

    /** `parseUri(data)`: nothing for empty text; edge-login text goes to the
        login scene without reaching the parser; anything else is handed to
        the wallet core's parser with the wallet selected at this call. The
        scan state is never touched. */
    method ParseUri(data: string, selectedWalletId: string)
      requires Valid()
      modifies this
      ensures Valid()
      ensures log == old(log) + ParseUriEffects(data, selectedWalletId, isEdgeLogin(data))
      ensures State() == old(State())
    {
      if data == "" {
        return;
      }
      if isEdgeLogin(data) {
        Emit(Dispatched(LoginWithEdge(data)));
        Emit(Navigated(EdgeLoginScene));
        return;
      }
      Emit(ParserCalled(selectedWalletId, data));
    }

    /** `qrCodeScanned(data)`: ignored while scanning is off; otherwise turns
        scanning off and then parses, even empty text. */
    method QrCodeScanned(data: string, selectedWalletId: string)
      requires Valid()
      modifies this
      ensures Valid()
      ensures log == old(log) + QrCodeScannedEffects(old(scanEnabled), data, selectedWalletId, isEdgeLogin(data))
      ensures !old(scanEnabled) ==> State() == old(State())
      ensures old(scanEnabled) ==> State() == old(State()).(scanEnabled := false)
    {
      if !scanEnabled {
        return;
      }
      Emit(Dispatched(DisableScan));
      ParseUri(data, selectedWalletId);
    }

    /** `addressModalDoneButtonPressed(data)`: manual entry parses without
        reading or changing the flag. */
    method AddressModalDoneButtonPressed(data: string, selectedWalletId: string)
      requires Valid()
      modifies this
      ensures Valid()
      ensures log == old(log) + ParseUriEffects(data, selectedWalletId, isEdgeLogin(data))
      ensures State() == old(State())
    {
      ParseUri(data, selectedWalletId);
    }

    /** The parser, called while `selectedWalletId` was selected, resolved
        with `p`: record it, then exactly one follow-up, which uses the wallet
        id read when the parser was called. */
    method OnParseSucceeded(p: ParsedUri, selectedWalletId: string)
      requires Valid() && ParserWasCalledFor(selectedWalletId)
      modifies this
      ensures Valid()
      ensures log == old(log) + ParseSucceededEffects(p, selectedWalletId, denominationToDecimalPlaces)
      ensures State() == old(State()).(parsedUri := Some(p))
    {
      Emit(Dispatched(ParseUriSucceeded(p)));
      if p.token.Some? {
        var t := p.token.value;
        var currencyCode := ToUpperCase(t.currencyCode);
        var decimalPlaces := 18;
        if t.multiplier != "" {
          decimalPlaces := denominationToDecimalPlaces(t.multiplier);
        }
        var params := AddTokenParams(t.contractAddress, currencyCode, t.currencyName, t.multiplier, decimalPlaces, selectedWalletId);
        Emit(Navigated(AddTokenScene(params)));
      } else if IsLegacyAddressUri(p) {
        Emit(Scheduled(Timeout(ModalDelay), ActivateLegacyAddressModal));
      } else if IsPrivateKeyUri(p) {
        Emit(Scheduled(Timeout(ModalDelay), ActivatePrivateKeyModal));
      } else if IsPaymentProtocolUri(p) {
        Emit(Dispatched(PaymentProtocolUriReceived(p)));
      } else {
        Emit(Navigated(SendConfirmationScene("fromScan")));
        Emit(Dispatched(UpdateParsedUri(p)));
      }
      ReplayAppend(start, old(log), ParseSucceededEffects(p, selectedWalletId, denominationToDecimalPlaces));
      ParseSucceededState(old(State()), p, selectedWalletId, denominationToDecimalPlaces);
    }

    /** The parser rejected the text: scanning is turned off and an alert is
        deferred; only its OK button turns scanning back on. */
    method OnParseFailed()
      requires Valid() && ParserWasCalled()
      modifies this
      ensures Valid()
      ensures log == old(log) + ParseFailedEffects()
      ensures State() == old(State()).(scanEnabled := false)
    {
      Emit(Dispatched(DisableScan));
      Emit(Scheduled(Timeout(ModalDelay), ShowInvalidAddressAlert));
    }

    /** OK on the invalid-address alert. */
    method InvalidAddressAlertOkPressed()
      requires Valid()
      requires InvalidAddressAlertShown in log
      modifies this
      ensures Valid()
      ensures log == old(log) + [Dispatched(EnableScan)]
      ensures State() == old(State()).(scanEnabled := true)
    {
      Emit(Dispatched(EnableScan));
    }

    /** Continue on the legacy-address modal: close it, then (deferred) either
        re-enable scanning when no URI is stored or open send confirmation
        with the stored one. */
    method LegacyAddressModalContinueButtonPressed()
      requires Valid()
      requires Dispatched(LegacyAddressModalActivated) in log
      modifies this
      ensures Valid()
      ensures log == old(log) + LegacyContinueEffects(old(parsedUri))
      ensures State() == old(State())
    {
      var stored := parsedUri;
      Emit(Dispatched(LegacyAddressModalDeactivated));
      Emit(Scheduled(Immediate, ContinueWithParsedUri(stored)));
    }

    /** Cancel on the legacy-address modal: close it and re-enable scanning;
        the stored URI stays. */
    method LegacyAddressModalCancelButtonPressed()
      requires Valid()
      requires Dispatched(LegacyAddressModalActivated) in log
      modifies this
      ensures Valid()
      ensures log == old(log) + LegacyCancelEffects()
      ensures State() == old(State()).(scanEnabled := true)
    {
      Emit(Dispatched(LegacyAddressModalDeactivated));
      Emit(Dispatched(EnableScan));
    }

    /** A deferred callback fires. */
    method RunTask(t: Task)
      requires Valid() && IsScheduled(t)
      modifies this
      ensures Valid()
      ensures log == old(log) + TaskEffects(t)
      ensures t == ContinueWithParsedUri(None) ==> State() == old(State()).(scanEnabled := true)
      ensures t != ContinueWithParsedUri(None) ==> State() == old(State())
    {
      match t
      case ActivateLegacyAddressModal =>
        Emit(Dispatched(LegacyAddressModalActivated));
      case ActivatePrivateKeyModal =>
        Emit(Dispatched(PrivateKeyModalActivated));
      case ShowInvalidAddressAlert =>
        Emit(InvalidAddressAlertShown);
      case ContinueWithParsedUri(captured) =>
        if captured.None? {
          Emit(Dispatched(EnableScan));
        } else {
          Emit(Navigated(SendConfirmationScene("fromScan")));
          Emit(Dispatched(UpdateParsedUri(captured.value)));
        }
    }
  }

  /** In a scene, scanning that was off after the first `i` logged events and
      is on now was turned back on by an ENABLE_SCAN dispatched since. */
  lemma ScanComesBackOnlyThroughEnableScan(scene: ScanScene, i: nat)
    requires scene.Valid() && i <= |scene.log|
    requires !Replay(scene.start, scene.log[..i]).scanEnabled && scene.scanEnabled
    ensures Dispatched(EnableScan) in scene.log[i..]
  {
    assert scene.log == scene.log[..i] + scene.log[i..];
    ReplayAppend(scene.start, scene.log[..i], scene.log[i..]);
    OnlyEnableScanEnables(Replay(scene.start, scene.log[..i]), scene.log[i..]);
  }
}
