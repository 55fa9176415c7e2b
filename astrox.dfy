/**
 * The decision logic of the AstroX wallet connector (class CustomAstroX of
 * packages/connect/ic/providers/astrox.ts) as specification functions.
 *
 * The connector keeps five private fields (Snapshot). Each public operation is
 * a Step: its result, the fields afterwards, and the calls it made into the
 * wallet SDK, in order. The SDK itself is not part of this model: an `Sdk`
 * value says what each SDK call would answer during one public operation
 * (a value or a thrown exception), and every property below holds for every
 * such answer.
 */
module AstroX {
  import opened Js
  import opened ConnectorErrors
  import opened AstroXConfig

  datatype Identity = Identity(key: string)

  datatype Wallet = Wallet(principal: string, accountId: string)

  /**
   * What the connector reads from the SDK's IC object. `principal` is None when
   * `principal.toText()` throws (no principal yet).
   */
  datatype Ic = Ic(
    delegationTargets: Option<seq<string>>,
    principal: Option<string>,
    identity: Option<Identity>,
    wallet: Option<Wallet>)

  datatype Permission = IdentityPermission | WalletPermission

  /** The options object passed to `IC.create` and to `connect` (without `useFrame`). */
  datatype SdkOptions = SdkOptions(
    signerProviderUrl: string,
    walletProviderUrl: string,
    identityProvider: string,
    permissions: seq<Permission>,
    host: string,
    ledgerCanisterId: string,
    ledgerHost: Option<string>,
    dev: bool,
    delegationTargets: seq<string>,
    delegationModes: Option<seq<DelegationMode>>,
    noUnify: Option<bool>,
    customDomain: Option<string>)

  datatype Idl = Idl(name: string)

  datatype Actor = Actor(handle: nat)

  /** A JavaScript number as `BigInt` sees it: an integer, or a value it refuses by throwing. */
  datatype Num = Integral(n: int) | Fractional

  /**
   * The arguments of `requestTransfer`. `units` is the already scaled
   * `amount * 10 ** decimals`; absent optional arguments are None.
   */
  datatype TransferArgs = TransferArgs(
    to: string,
    units: Num,
    standard: Option<string>,
    symbol: Option<string>,
    fee: Option<Num>)

  datatype TransferRequest = TransferRequest(amount: int, to: string, standard: string, symbol: string, fee: int)

  /**
   * The raw value the SDK's `requestTransfer` resolves to: a string, a falsy
   * value, or a truthy value whose `kind` (absent unless it is an object with one)
   * and `payload?.blockHeight` are read.
   */
  datatype TransferResponse =
    | Text(s: string)
    | Falsy
    | Message(kind: Option<string>, blockHeight: Option<nat>)

  const SuccessKind := "transaction-client-success"

  /** `{ height }`; None stands for the NaN that `Number(undefined)` gives. */
  datatype TransferOk = TransferOk(height: Option<nat>)

  /** One balance entry; `amountE8s` is the raw balance (None for NaN) that the source divides by 10^8. */
  datatype Asset = Asset(amountE8s: Option<int>, canisterId: string, decimals: nat, name: string, symbol: string)

  datatype InitOk = InitOk(isConnected: bool)

  /** What `isAuthenticated()` resolves to, with the IC object's state afterwards. */
  datatype AuthAnswer = AuthAnswer(authenticated: bool, after: Ic)

  datatype SdkCall =
    | Create(options: SdkOptions)
    | IsAuthenticated
    | CreateActorCall(idl: Idl, canisterId: string)
    | Connect(options: SdkOptions)
    | Disconnect
    | RequestTransfer(request: TransferRequest)
    | QueryBalance

  /**
   * The answers of the SDK and of the page during one public operation.
   * `injected` is `window.ic.astrox`: Throws when `window.ic` is undefined.
   * `isAuthenticated`, `connect` and `disconnect` answer with the IC object's
   * state afterwards; a call that throws leaves it as it was.
   */
  datatype Sdk = Sdk(
    create: SdkOptions -> Outcome<Ic>,
    injected: Outcome<Option<Ic>>,
    isAuthenticated: Ic -> Outcome<AuthAnswer>,
    createActor: (Ic, Idl, string) -> Outcome<Actor>,
    connect: (Ic, SdkOptions) -> Outcome<Ic>,
    disconnect: Ic -> Outcome<Ic>,
    requestTransfer: (Ic, TransferRequest) -> Outcome<TransferResponse>,
    queryBalance: Ic -> Outcome<int>)

  /** The private fields `#config`, `#identity`, `#principal`, `#ic` and `#wallet`. */
  datatype Snapshot = Snapshot(
    config: Config,
    identity: Option<Identity>,
    principal: Option<string>,
    ic: Option<Ic>,
    wallet: Option<Wallet>)

  datatype Step<R> = Step(result: R, after: Snapshot, calls: seq<SdkCall>)

  /** Identity, principal and wallet are only ever read from an IC object the connector holds. */
  predicate Consistent(s: Snapshot) {
    (s.identity.Some? || s.principal.Some? || s.wallet.Some?) ==> s.ic.Some?
  }

  /** The state right after construction. */
  function Fresh(config: Config): (s: Snapshot)
    ensures Consistent(s) && s.ic.None? && s.wallet.None?
  {
    Snapshot(config, None, None, None, None)
  }

  function OptionsFor(c: Config, targets: seq<string>): SdkOptions {
    SdkOptions(
      signerProviderUrl := c.providerUrl + "/#signer",
      walletProviderUrl := c.providerUrl + "/#transaction",
      identityProvider := c.providerUrl + "/#authorize",
      permissions := [IdentityPermission, WalletPermission],
      host := c.host,
      ledgerCanisterId := c.ledgerCanisterId,
      ledgerHost := c.ledgerHost,
      dev := c.dev,
      delegationTargets := targets,
      delegationModes := c.delegationModes,
      noUnify := c.noUnify,
      customDomain := c.customDomain)
  }

  /** `this.#ic?.delegationTargets ?? []`. */
  function PreviousTargets(ic: Option<Ic>): seq<string> {
    if ic.Some? && ic.value.delegationTargets.Some? then ic.value.delegationTargets.value else []
  }

  /** The delegation targets `init` asks for: configured whitelist, then the extra ones, then those of the previous IC object. */
  function DelegationTargets(configured: seq<string>, extra: Option<seq<string>>, previous: Option<Ic>): (r: seq<string>)
    ensures |r| == |configured| + |extra.GetOr([])| + |PreviousTargets(previous)|
    ensures r[..|configured|] == configured
    ensures r[|configured|..|configured| + |extra.GetOr([])|] == extra.GetOr([])
    ensures r[|configured| + |extra.GetOr([])|..] == PreviousTargets(previous)
    ensures forall t :: t in r <==> t in configured || t in extra.GetOr([]) || t in PreviousTargets(previous)
  {
    var r := configured + extra.GetOr([]) + PreviousTargets(previous);
    assert r[..|configured|] == configured;
    assert r[|configured|..|configured| + |extra.GetOr([])|] == extra.GetOr([]);
    assert r[|configured| + |extra.GetOr([])|..] == PreviousTargets(previous);
    r
  }

  /** The options `init(whitelist)` passes to `IC.create` from state `s`. */
  function InitOptions(s: Snapshot, whitelist: Option<seq<string>>): SdkOptions {
    OptionsFor(s.config, DelegationTargets(s.config.whitelist, whitelist, s.ic))
  }

  /** The IC object `init` keeps: `whitelist ? ic : (window.ic.astrox ?? ic)`; every array is truthy. */
  function Chosen(whitelist: Option<seq<string>>, created: Ic, injected: Outcome<Option<Ic>>): (r: Outcome<Ic>)
    ensures whitelist.Some? ==> r == Returns(created)
    ensures whitelist.None? && injected.Returns? ==> r == Returns(injected.value.GetOr(created))
    ensures r.Throws? <==> whitelist.None? && injected.Throws?
  {
    if whitelist.Some? then Returns(created)
    else match injected
      case Throws => Throws
      case Returns(astrox) => Returns(astrox.GetOr(created))
  }

  /** The IC object `init(whitelist)` goes on with, or Throws when `IC.create` or reading `window.ic.astrox` throws. */
  function Kept(s: Snapshot, whitelist: Option<seq<string>>, sdk: Sdk): (r: Outcome<Ic>)
    ensures r.Returns? <==> sdk.create(InitOptions(s, whitelist)).Returns? && (whitelist.Some? || sdk.injected.Returns?)
    ensures r.Returns? && whitelist.Some? ==> r == sdk.create(InitOptions(s, whitelist))
    ensures r.Returns? && whitelist.None? ==> r == Returns(sdk.injected.value.GetOr(sdk.create(InitOptions(s, whitelist)).value))
  {
    match sdk.create(InitOptions(s, whitelist))
    case Throws => Throws
    case Returns(created) => Chosen(whitelist, created, sdk.injected)
  }

  /** The answer of `isConnected()`, the IC object afterwards, and the SDK calls made. */
  datatype Auth = Auth(connected: bool, ic: Option<Ic>, calls: seq<SdkCall>)

  /** `isConnected()`. */
  function AuthCheck(ic: Option<Ic>, sdk: Sdk): (r: Auth)
    ensures ic.None? ==> r == Auth(false, None, [])
    ensures ic.Some? ==> r.calls == [IsAuthenticated] && r.ic.Some?
    ensures r.connected <==> ic.Some? && sdk.isAuthenticated(ic.value).Returns? && sdk.isAuthenticated(ic.value).value.authenticated
    ensures ic.Some? && sdk.isAuthenticated(ic.value).Throws? ==> r.ic == ic
    ensures ic.Some? && sdk.isAuthenticated(ic.value).Returns? ==> r.ic == Some(sdk.isAuthenticated(ic.value).value.after)
  {
    if ic.None? then Auth(false, None, [])
    else
      match sdk.isAuthenticated(ic.value)
      case Returns(answer) => Auth(answer.authenticated, Some(answer.after), [IsAuthenticated])
      case Throws => Auth(false, ic, [IsAuthenticated])
  }

  /**
   * `init(whitelist)`. The principal and identity are read from the kept IC
   * object before `isConnected()`; when it answers true, identity, principal and
   * wallet are read again from the object as `isAuthenticated` left it, and the
   * second principal read can still throw after the identity was stored.
   */
  function InitSpec(s: Snapshot, whitelist: Option<seq<string>>, sdk: Sdk): (r: Step<Result<InitOk, InitError>>)
    ensures r.calls == [Create(InitOptions(s, whitelist))] || r.calls == [Create(InitOptions(s, whitelist)), IsAuthenticated]
    ensures r.after.config == s.config
    ensures s.ic.Some? ==> r.after.ic.Some?
    ensures Consistent(s) ==> Consistent(r.after)
    ensures r.result.Err? ==> r.result.error == InitFailed
    ensures Kept(s, whitelist, sdk).Throws? ==> r == Step(Err(InitFailed), s, [Create(InitOptions(s, whitelist))])
    ensures Kept(s, whitelist, sdk).Returns? && Kept(s, whitelist, sdk).value.principal.None? ==>
      r == Step(Err(InitFailed), s.(ic := Some(Kept(s, whitelist, sdk).value)), [Create(InitOptions(s, whitelist))])
    ensures Kept(s, whitelist, sdk).Returns? && Kept(s, whitelist, sdk).value.principal.Some? ==>
      var check := AuthCheck(Some(Kept(s, whitelist, sdk).value), sdk);
      && r.calls == [Create(InitOptions(s, whitelist)), IsAuthenticated]
      && r.after.ic == check.ic
      && (r.result.Ok? <==> !check.connected || check.ic.value.principal.Some?)
      && (r.result.Ok? ==> r.result.value.isConnected == check.connected)
      && (r.result.Err? ==>
        r.after == s.(ic := check.ic, principal := Kept(s, whitelist, sdk).value.principal, identity := check.ic.value.identity))
    ensures r.result.Ok? <==> (Kept(s, whitelist, sdk).Returns? && Kept(s, whitelist, sdk).value.principal.Some? &&
      var check := AuthCheck(Some(Kept(s, whitelist, sdk).value), sdk);
      check.connected ==> check.ic.value.principal.Some?)
    ensures r.result == Ok(InitOk(false)) ==>
      && r.after.principal == Kept(s, whitelist, sdk).value.principal
      && r.after.identity == Kept(s, whitelist, sdk).value.identity
      && r.after.wallet == s.wallet
    ensures r.result == Ok(InitOk(true)) ==>
      && r.after.ic.Some?
      && r.after.principal == r.after.ic.value.principal
      && r.after.identity == r.after.ic.value.identity
      && r.after.wallet == r.after.ic.value.wallet
    ensures r.result.Err? ==> r.after.wallet == s.wallet
    ensures r.after.wallet != s.wallet ==> r.result == Ok(InitOk(true))
  {
    var options := InitOptions(s, whitelist);
    var kept := Kept(s, whitelist, sdk);
    if kept.Throws? then
      Step(Err(InitFailed), s, [Create(options)])
    else if kept.value.principal.None? then
      Step(Err(InitFailed), s.(ic := Some(kept.value)), [Create(options)])
    else
      var check := AuthCheck(Some(kept.value), sdk);
      var now := check.ic.value;
      var signedIn := s.(ic := check.ic, principal := kept.value.principal, identity := kept.value.identity);
      var calls := [Create(options)] + check.calls;
      if !check.connected then
        Step(Ok(InitOk(false)), signedIn, calls)
      else if now.principal.None? then
        Step(Err(InitFailed), signedIn.(identity := now.identity), calls)
      else
        Step(Ok(InitOk(true)), signedIn.(identity := now.identity, principal := now.principal, wallet := now.wallet), calls)
  }

  /** `!this.#ic?.delegationTargets?.includes(canisterId)`. */
  predicate NeedsReinit(ic: Ic, canisterId: string) {
    !(ic.delegationTargets.Some? && canisterId in ic.delegationTargets.value)
  }

  /** `createActor(canisterId, idl)`: at most one re-`init` with the canister added, then the SDK's `createActor`. */
  function CreateActorSpec(s: Snapshot, canisterId: string, idl: Idl, sdk: Sdk): (r: Step<Result<Actor, CreateActorError>>)
    ensures s.ic.None? ==> r == Step(Err(CreateActorError.NotInitialized), s, [])
    ensures s.ic.Some? ==> r.after.ic.Some? && |r.calls| > 0 && r.calls[|r.calls| - 1] == CreateActorCall(idl, canisterId)
    ensures s.ic.Some? ==> (r.result.Ok? <==> sdk.createActor(r.after.ic.value, idl, canisterId).Returns?)
    ensures r.result.Ok? ==> r.result.value == sdk.createActor(r.after.ic.value, idl, canisterId).value
    ensures r.result.Err? ==> r.result.error == CreateActorError.NotInitialized || r.result.error == CreateActorFailed
    ensures s.ic.Some? && r.result.Err? ==> r.result.error == CreateActorFailed
    ensures s.ic.Some? && !NeedsReinit(s.ic.value, canisterId) ==> r.after == s && r.calls == [CreateActorCall(idl, canisterId)]
    ensures s.ic.Some? && NeedsReinit(s.ic.value, canisterId) ==>
      r.after == InitSpec(s, Some([canisterId]), sdk).after && r.calls == InitSpec(s, Some([canisterId]), sdk).calls + [CreateActorCall(idl, canisterId)]
    ensures r.after.config == s.config
    ensures Consistent(s) ==> Consistent(r.after)
  {
    if s.ic.None? then
      Step(Err(CreateActorError.NotInitialized), s, [])
    else
      var reinit := NeedsReinit(s.ic.value, canisterId);
      var init := InitSpec(s, Some([canisterId]), sdk);
      var ready := if reinit then init.after else s;
      var calls := (if reinit then init.calls else []) + [CreateActorCall(idl, canisterId)];
      match sdk.createActor(ready.ic.value, idl, canisterId)
      case Returns(actor) => Step(Ok(actor), ready, calls)
      case Throws => Step(Err(CreateActorFailed), ready, calls)
  }

  /** `connect()`. */
  function ConnectSpec(s: Snapshot, sdk: Sdk): (r: Step<Result<bool, ConnectError>>)
    ensures s.ic.None? ==> r == Step(Err(ConnectError.NotInitialized), s, [])
    ensures s.ic.Some? ==> r.calls == [Connect(OptionsFor(s.config, s.config.whitelist))]
    ensures r.result.Ok? ==> r.result.value
    ensures r.result.Err? ==> r.result.error == ConnectError.NotInitialized || r.result.error == ConnectFailed
    ensures s.ic.Some? && r.result.Err? ==> r.result.error == ConnectFailed
    ensures r.result.Ok? <==> s.ic.Some? && var answer := sdk.connect(s.ic.value, OptionsFor(s.config, s.config.whitelist));
      answer.Returns? && answer.value.principal.Some?
    ensures r.result.Ok? ==> (r.after.ic.Some? && r.after.principal == r.after.ic.value.principal &&
      r.after.identity == r.after.ic.value.identity && r.after.wallet == r.after.ic.value.wallet)
    ensures r.result.Ok? ==> r.after.ic == Some(sdk.connect(s.ic.value, OptionsFor(s.config, s.config.whitelist)).value)
    ensures r.result.Err? ==> r.after == s.(ic := r.after.ic)
    ensures r.result.Err? && s.ic.Some? ==> var answer := sdk.connect(s.ic.value, OptionsFor(s.config, s.config.whitelist));
      r.after.ic == if answer.Returns? then Some(answer.value) else s.ic
    ensures r.after.wallet != s.wallet ==> r.result == Ok(true)
    ensures r.after.config == s.config
    ensures s.ic.Some? ==> r.after.ic.Some?
    ensures Consistent(s) ==> Consistent(r.after)
  {
    if s.ic.None? then
      Step(Err(ConnectError.NotInitialized), s, [])
    else
      var options := OptionsFor(s.config, s.config.whitelist);
      match sdk.connect(s.ic.value, options)
      case Throws => Step(Err(ConnectFailed), s, [Connect(options)])
      case Returns(connected) =>
        if connected.principal.None? then
          Step(Err(ConnectFailed), s.(ic := Some(connected)), [Connect(options)])
        else
          Step(Ok(true), s.(ic := Some(connected), principal := connected.principal, identity := connected.identity, wallet := connected.wallet), [Connect(options)])
  }

  /** `disconnect()`: forwards to the SDK when there is an IC object and clears none of the connector's fields. */
  function DisconnectSpec(s: Snapshot, sdk: Sdk): (r: Step<Result<bool, DisconnectError>>)
    ensures r.result == Ok(true) || r.result == Err(DisconnectFailed)
    ensures r.result.Err? <==> s.ic.Some? && sdk.disconnect(s.ic.value).Throws?
    ensures s.ic.None? ==> r == Step(Ok(true), s, [])
    ensures s.ic.Some? ==> r.calls == [Disconnect] && r.after.ic.Some?
    ensures s.ic.Some? ==> r.after.ic == if sdk.disconnect(s.ic.value).Returns? then Some(sdk.disconnect(s.ic.value).value) else s.ic
    ensures r.after == s.(ic := r.after.ic)
  {
    if s.ic.None? then
      Step(Ok(true), s, [])
    else
      match sdk.disconnect(s.ic.value)
      case Throws => Step(Err(DisconnectFailed), s, [Disconnect])
      case Returns(after) => Step(Ok(true), s.(ic := Some(after)), [Disconnect])
  }

  /** The request object, or None when one of its `BigInt(...)` conversions throws. */
  function TransferRequestFor(args: TransferArgs): (r: Option<TransferRequest>)
    ensures r.Some? <==> args.units.Integral? && (args.fee.None? || args.fee.value.Integral?)
    ensures r.Some? ==> r.value.amount == args.units.n && r.value.to == args.to
    ensures r.Some? ==> r.value.standard == args.standard.GetOr("ICP") && r.value.symbol == args.symbol.GetOr("ICP")
    ensures r.Some? ==> r.value.fee == (if args.fee.Some? then args.fee.value.n else 0)
  {
    var fee := args.fee.GetOr(Integral(0));
    if args.units.Fractional? || fee.Fractional? then None
    else Some(TransferRequest(args.units.n, args.to, args.standard.GetOr("ICP"), args.symbol.GetOr("ICP"), fee.n))
  }

  /** How `requestTransfer` turns what awaiting the SDK call produced into a result. */
  function ClassifyTransfer(raw: Outcome<TransferResponse>): (r: Result<TransferOk, TransferError>)
    ensures r.Ok? <==> raw.Returns? && raw.value.Message? && raw.value.kind == Some(SuccessKind)
    ensures r.Ok? ==> r.value.height == raw.value.blockHeight
    ensures r == Err(FaultyAddress) <==> raw.Returns? && raw.value.Text?
    ensures r.Err? ==> r.error == FaultyAddress || r.error == TransferFailed
  {
    match raw
    case Throws => Err(TransferFailed)
    case Returns(Text(_)) => Err(FaultyAddress)
    case Returns(Falsy) => Err(TransferFailed)
    case Returns(Message(kind, height)) =>
      if kind == Some(SuccessKind) then Ok(TransferOk(height)) else Err(TransferFailed)
  }

  /**
   * `requestTransfer(args)`. Without an IC object the optional call yields
   * `undefined` and skips the conversions of its arguments.
   */
  function TransferSpec(s: Snapshot, args: TransferArgs, sdk: Sdk): (r: Step<Result<TransferOk, TransferError>>)
    ensures r.after == s
    ensures s.ic.None? ==> r == Step(Err(TransferFailed), s, [])
    ensures r.calls == if s.ic.Some? && TransferRequestFor(args).Some? then [RequestTransfer(TransferRequestFor(args).value)] else []
    ensures s.ic.Some? && TransferRequestFor(args).Some? ==>
      r.result == ClassifyTransfer(sdk.requestTransfer(s.ic.value, TransferRequestFor(args).value))
    ensures TransferRequestFor(args).None? ==> r.result == Err(TransferFailed)
    ensures r.result.Ok? ==> r.calls != [] && sdk.requestTransfer(s.ic.value, r.calls[0].request) == Returns(Message(Some(SuccessKind), r.result.value.height))
    ensures r.result.Err? ==> r.result.error == FaultyAddress || r.result.error == TransferFailed
  {
    if s.ic.None? then
      Step(ClassifyTransfer(Returns(Falsy)), s, [])
    else
      match TransferRequestFor(args)
      case None => Step(ClassifyTransfer(Throws), s, [])
      case Some(request) => Step(ClassifyTransfer(sdk.requestTransfer(s.ic.value, request)), s, [RequestTransfer(request)])
  }

  /** `queryBalance()`. */
  function BalanceSpec(s: Snapshot, sdk: Sdk): (r: Step<Result<seq<Asset>, BalanceError>>)
    ensures r.after == s
    ensures r.calls == if s.ic.Some? then [QueryBalance] else []
    ensures r.result.Err? <==> s.ic.Some? && sdk.queryBalance(s.ic.value).Throws?
    ensures r.result.Err? ==> r.result.error == QueryBalanceFailed
    ensures r.result.Ok? ==> |r.result.value| == 1
    ensures r.result.Ok? ==> var a := r.result.value[0];
      a.canisterId == s.config.ledgerCanisterId && a.decimals == 8 && a.name == "ICP" && a.symbol == "ICP"
    ensures r.result.Ok? ==> (r.result.value[0].amountE8s.Some? <==> s.ic.Some?)
    ensures r.result.Ok? && s.ic.Some? ==> r.result.value[0].amountE8s == Some(sdk.queryBalance(s.ic.value).value)
  {
    var raw: Outcome<Option<int>> :=
      if s.ic.None? then Returns(None)
      else match sdk.queryBalance(s.ic.value)
        case Throws => Throws
        case Returns(e8s) => Returns(Some(e8s));
    var calls := if s.ic.Some? then [QueryBalance] else [];
    match raw
    case Throws => Step(Err(QueryBalanceFailed), s, calls)
    case Returns(amount) => Step(Ok([Asset(amount, s.config.ledgerCanisterId, 8, "ICP", "ICP")]), s, calls)
  }

  /** How many `IC.create` calls a call sequence holds, that is, how many times it runs `init`. */
  function CreateCount(calls: seq<SdkCall>): nat {
    if calls == [] then 0 else (if calls[0].Create? then 1 else 0) + CreateCount(calls[1..])
  }

  lemma {:induction false} CreateCountAppend(a: seq<SdkCall>, b: seq<SdkCall>)
    ensures CreateCount(a + b) == CreateCount(a) + CreateCount(b)
  {
    if a != [] {
      assert (a + b)[1..] == a[1..] + b;
      CreateCountAppend(a[1..], b);
    } else {
      assert a + b == b;
    }
  }

  /** `init` makes exactly one `IC.create` call, whether or not it succeeds. */
  lemma InitCreatesOnce(s: Snapshot, whitelist: Option<seq<string>>, sdk: Sdk)
    ensures CreateCount(InitSpec(s, whitelist, sdk).calls) == 1
  {
    var calls := InitSpec(s, whitelist, sdk).calls;
    assert calls[1..] == [] || calls[1..] == [IsAuthenticated];
    assert CreateCount([IsAuthenticated]) == 0 by {
      assert [IsAuthenticated][1..] == [];
    }
  }

  /**
   * `createActor` makes exactly one `IC.create` call (its re-`init`) when the
   * canister is not among the current delegation targets and none when it is, and the re-`init` asks
   * for the canister while keeping the configured and the previous targets.
   */
  lemma CreateActorReinitsOnce(s: Snapshot, canisterId: string, idl: Idl, sdk: Sdk)
    requires s.ic.Some?
    ensures CreateCount(CreateActorSpec(s, canisterId, idl, sdk).calls) == if NeedsReinit(s.ic.value, canisterId) then 1 else 0
    ensures NeedsReinit(s.ic.value, canisterId) ==>
      var requested := CreateActorSpec(s, canisterId, idl, sdk).calls[0].options.delegationTargets;
      canisterId in requested && requested[|s.config.whitelist| + 1..] == PreviousTargets(s.ic)
      && (forall t :: t in s.config.whitelist ==> t in requested)
  {
    var r := CreateActorSpec(s, canisterId, idl, sdk);
    var last := [CreateActorCall(idl, canisterId)];
    assert CreateCount(last) == 0;
    if NeedsReinit(s.ic.value, canisterId) {
      InitCreatesOnce(s, Some([canisterId]), sdk);
      CreateCountAppend(InitSpec(s, Some([canisterId]), sdk).calls, last);
      var requested := DelegationTargets(s.config.whitelist, Some([canisterId]), s.ic);
      assert requested[|s.config.whitelist|..|s.config.whitelist| + 1] == [canisterId];
      assert canisterId in requested;
    }
  }

  /** Before the first `init` both `connect` and `createActor` answer NotInitialized without calling the SDK. */
  lemma GuardsBeforeInit(config: Config, canisterId: string, idl: Idl, sdk: Sdk)
    ensures ConnectSpec(Fresh(config), sdk) == Step(Err(ConnectError.NotInitialized), Fresh(config), [])
    ensures CreateActorSpec(Fresh(config), canisterId, idl, sdk) == Step(Err(CreateActorError.NotInitialized), Fresh(config), [])
    ensures !AuthCheck(Fresh(config).ic, sdk).connected
  {
  }
}
