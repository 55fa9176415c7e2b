/**
 * The AstroX connector object (class CustomAstroX of
 * packages/connect/ic/providers/astrox.ts). Its methods update the private
 * fields step by step, as the source does, and each is proved to agree with
 * the specification function of the same operation in module AstroX.
 * `sdkCalls` records every call made into the wallet SDK, oldest first.
 */
module AstroXConnector {
  import opened Js
  import opened ConnectorErrors
  import opened AstroXConfig
  import opened AstroX

  class CustomAstroX {
    var config: Config
    var identity: Option<Identity>
    var principal: Option<string>
    var ic: Option<Ic>
    var wallet: Option<Wallet>
    ghost var sdkCalls: seq<SdkCall>

    function Snap(): Snapshot
      reads this
    {
      Snapshot(config, identity, principal, ic, wallet)
    }

    ghost predicate Valid()
      reads this
    {
      Consistent(Snap())
    }

    /** `new CustomAstroX(userConfig)`: the defaults spread with the user's config. */
    constructor (userConfig: ConfigPatch, iiDerivationOrigin: Option<string>)
      ensures Valid()
      ensures Snap() == Fresh(Merge(Defaults(iiDerivationOrigin), userConfig))
      ensures sdkCalls == []
    {
      config := Merge(Defaults(iiDerivationOrigin), userConfig);
      identity, principal, ic, wallet := None, None, None, None;
      sdkCalls := [];
    }

    /** The `wallets` getter: the stored wallet, if any, as a list. */
    function Wallets(): (r: seq<Wallet>)
      requires Valid()
      reads this
      ensures |r| <= 1
      ensures |r| == 1 ==> ic.Some?
      ensures |r| == 1 <==> wallet.Some?
      ensures wallet.Some? ==> r == [wallet.value]
    {
      if wallet.Some? then [wallet.value] else []
    }

    /** The `config` setter. */
    method SetConfig(patch: ConfigPatch)
      requires Valid()
      modifies this
      ensures Valid()
      ensures Snap() == old(Snap()).(config := Merge(old(config), patch))
      ensures sdkCalls == old(sdkCalls)
    {
      config := Merge(config, patch);
    }

    method IsConnected(sdk: Sdk) returns (connected: bool)
      requires Valid()
      modifies this
      ensures Valid()
      ensures Snap() == old(Snap()).(ic := AuthCheck(old(ic), sdk).ic)
      ensures connected == AuthCheck(old(ic), sdk).connected
      ensures sdkCalls == old(sdkCalls) + AuthCheck(old(ic), sdk).calls
    {
      if ic.None? {
        return false;
      }
      sdkCalls := sdkCalls + [IsAuthenticated];
      var answer := sdk.isAuthenticated(ic.value);
      if answer.Throws? {
        return false;
      }
      ic := Some(answer.value.after);
      return answer.value.authenticated;
    }

    method Init(whitelist: Option<seq<string>>, sdk: Sdk) returns (r: Result<InitOk, InitError>)
      requires Valid()
      modifies this
      ensures Valid()
      ensures Snap() == InitSpec(old(Snap()), whitelist, sdk).after
      ensures r == InitSpec(old(Snap()), whitelist, sdk).result
      ensures sdkCalls == old(sdkCalls) + InitSpec(old(Snap()), whitelist, sdk).calls
    {
      var options := OptionsFor(config, DelegationTargets(config.whitelist, whitelist, ic));
      sdkCalls := sdkCalls + [Create(options)];
      var created := sdk.create(options);
      if created.Throws? {
        return Err(InitFailed);
      }
      var kept := Chosen(whitelist, created.value, sdk.injected);
      if kept.Throws? {
        return Err(InitFailed);
      }
      ic := Some(kept.value);
      if ic.value.principal.None? {
        return Err(InitFailed);
      }
      principal := ic.value.principal;
      identity := ic.value.identity;
      var connected := IsConnected(sdk);
      if connected {
        identity := ic.value.identity;
        if ic.value.principal.None? {
          return Err(InitFailed);
        }
        principal := ic.value.principal;
        wallet := ic.value.wallet;
      }
      return Ok(InitOk(connected));
    }

    method CreateActor(canisterId: string, idl: Idl, sdk: Sdk) returns (r: Result<Actor, CreateActorError>)
      requires Valid()
      modifies this
      ensures Valid()
      ensures Snap() == CreateActorSpec(old(Snap()), canisterId, idl, sdk).after
      ensures r == CreateActorSpec(old(Snap()), canisterId, idl, sdk).result
      ensures sdkCalls == old(sdkCalls) + CreateActorSpec(old(Snap()), canisterId, idl, sdk).calls
    {
      if ic.None? {
        return Err(CreateActorError.NotInitialized);
      }
      if NeedsReinit(ic.value, canisterId) {
        var ignored := Init(Some([canisterId]), sdk);
      }
      sdkCalls := sdkCalls + [CreateActorCall(idl, canisterId)];
      var made := sdk.createActor(ic.value, idl, canisterId);
      if made.Throws? {
        return Err(CreateActorFailed);
      }
      return Ok(made.value);
    }

    method Connect(sdk: Sdk) returns (r: Result<bool, ConnectError>)
      requires Valid()
      modifies this
      ensures Valid()
      ensures Snap() == ConnectSpec(old(Snap()), sdk).after
      ensures r == ConnectSpec(old(Snap()), sdk).result
      ensures sdkCalls == old(sdkCalls) + ConnectSpec(old(Snap()), sdk).calls
    {
      if ic.None? {
        return Err(ConnectError.NotInitialized);
      }
      var options := OptionsFor(config, config.whitelist);
      sdkCalls := sdkCalls + [SdkCall.Connect(options)];
      var answer := sdk.connect(ic.value, options);
      if answer.Throws? {
        return Err(ConnectFailed);
      }
      ic := Some(answer.value);
      if ic.value.principal.None? {
        return Err(ConnectFailed);
      }
      principal := ic.value.principal;
      identity := ic.value.identity;
      wallet := ic.value.wallet;
      return Ok(true);
    }

    method Disconnect(sdk: Sdk) returns (r: Result<bool, DisconnectError>)
      requires Valid()
      modifies this
      ensures Valid()
      ensures Snap() == DisconnectSpec(old(Snap()), sdk).after
      ensures r == DisconnectSpec(old(Snap()), sdk).result
      ensures sdkCalls == old(sdkCalls) + DisconnectSpec(old(Snap()), sdk).calls
    {
      if ic.Some? {
        sdkCalls := sdkCalls + [SdkCall.Disconnect];
        var answer := sdk.disconnect(ic.value);
        if answer.Throws? {
          return Err(DisconnectFailed);
        }
        ic := Some(answer.value);
      }
      return Ok(true);
    }

    method RequestTransfer(args: TransferArgs, sdk: Sdk) returns (r: Result<TransferOk, TransferError>)
      modifies this
      ensures Snap() == old(Snap())
      ensures r == TransferSpec(old(Snap()), args, sdk).result
      ensures sdkCalls == old(sdkCalls) + TransferSpec(old(Snap()), args, sdk).calls
    {
      var raw: Outcome<TransferResponse>;
      if ic.None? {
        raw := Returns(Falsy);
      } else {
        var request := TransferRequestFor(args);
        if request.None? {
          raw := Throws;
        } else {
          sdkCalls := sdkCalls + [SdkCall.RequestTransfer(request.value)];
          raw := sdk.requestTransfer(ic.value, request.value);
        }
      }
      r := ClassifyTransfer(raw);
    }

    method QueryBalance(sdk: Sdk) returns (r: Result<seq<Asset>, BalanceError>)
      modifies this
      ensures Snap() == old(Snap())
      ensures r == BalanceSpec(old(Snap()), sdk).result
      ensures sdkCalls == old(sdkCalls) + BalanceSpec(old(Snap()), sdk).calls
    {
      var amount: Option<int> := None;
      if ic.Some? {
        sdkCalls := sdkCalls + [SdkCall.QueryBalance];
        var answer := sdk.queryBalance(ic.value);
        if answer.Throws? {
          return Err(QueryBalanceFailed);
        }
        amount := Some(answer.value);
      }
      return Ok([Asset(amount, config.ledgerCanisterId, 8, "ICP", "ICP")]);
    }
  }
}
