# easydapp-react decision logic in Dafny

This project models the three pieces of decision logic in the easydapp React
packages:

- **The AstroX wallet connector** (`CustomAstroX`). The model builds its
  configuration from defaults and a user config. It computes the delegation
  targets `init` asks the wallet SDK for, and picks the IC object that `init`
  keeps. `createActor` re-runs `init` once when the canister is not yet a
  delegation target. The model also turns SDK answers and exceptions into the
  tagged `ok`/`err` results of the connector interface.
- **The choose interaction widget** (`ComponentInteractionChooseView`). Its
  effect collects the choice items, and the collection is all-or-nothing.
  The widget shows either a result panel or a choice grid. It has two click
  handlers and a full-row span rule for grid buttons.
- **The text input of forms** (`InnerComponentFormTextView`). Its change
  handler ignores repeated values. It reports changes only while the
  component is shown, seeds its value from the default once, and renders
  nothing while hidden.

The wallet SDK, the page and the widgets' runtime are code outside this
repository. Each public operation takes their answers as a parameter value
(`AstroX.Sdk`, `Choose.Runtime`, the `shown` flag of `FormText`). Every
property below holds for every such answer. A thrown exception is
`Js.Outcome.Throws`. The calls an operation makes to that code are kept in
order: `sdkCalls`, `runtimeCalls` and `notified`.

Files:

- `js.dfy`: shared JavaScript values: `Option`, `Outcome`, the neverthrow
  `Result`, and `s || fallback`.
- `connector_errors.dfy`: the error tags of `packages/connect/ic/providers/types.ts`.
- `astrox_config.dfy`: the connector's configuration, its defaults and the
  object spread.
- `astrox.dfy`: one specification function per connector operation. Each
  gives the result, the private fields afterwards and the SDK calls made. The
  lemmas about them are here too.
- `astrox_connector.dfy`: the class `CustomAstroX`. Its methods update the
  fields step by step and are proved equal to the specification functions.
- `choose.dfy`, `text.dfy`: the two widgets. Each has a class for its React
  state and pure functions for what it renders.

The error enums of `packages/connect/ic/providers/types.ts` declare
`NOT_INITIALIZED` for disconnect, balance and transfer too, but the code never
returns it there. The model follows the code:

- Before `init`, only `connect` and `createActor` answer `NOT_INITIALIZED`.
- `disconnect` answers `ok(true)` without an IC object.
- `requestTransfer` answers `TRANSFER_FAILED` without an IC object.
- `queryBalance` answers `ok` without an IC object, with a NaN amount.

## Model

| member | source | states |
|---|---|---|
| `Js.OrElse` | packages/components/interaction/choose.tsx:84-85 | `s \|\| fallback` on an optional string: the fallback exactly when the value is undefined or empty, otherwise the value itself |
| `AstroXConfig.Merge` | packages/connect/ic/providers/astrox.ts:93-95 | every key the supplied object has takes its supplied value; for the four optional keys (`ledgerHost`, `noUnify`, `delegationModes`, `customDomain`) that includes an explicit `undefined`. Every other key keeps its value |
| `AstroXConfig.MergeNothing` | packages/connect/ic/providers/astrox.ts:93-95 | setting `{}` leaves the config unchanged |
| `AstroXConfig.MergeLastWriteWins` | packages/connect/ic/providers/astrox.ts:93-95 | two successive writes equal one write of both objects spread in order, the later value winning per key |
| `AstroXConfig.MergeIdempotent` | packages/connect/ic/providers/astrox.ts:93-95 | writing the same object twice equals writing it once |
| `AstroXConfig.Defaults` | packages/connect/ic/providers/astrox.ts:78-88 | the constructor's defaults: empty whitelist, provider `https://63k2f-nyaaa-aaaah-aakla-cai.raw.ic0.app`, ledger canister `ryjl3-tyaaa-aaaaa-aaaba-cai`, ledger host `https://boundary.ic0.app/`, `noUnify` false, host `https://icp-api.io`, `dev` false, modes `['global']`, and the derivation origin as custom domain |
| `AstroXConnector.CustomAstroX.constructor` | packages/connect/ic/providers/astrox.ts:77-91 | the config is the defaults (provider URL, ledger canister, ledger host, host, `dev` false, `noUnify` false, modes `['global']`, derivation origin) overridden by exactly the keys of `userConfig`; no IC object, identity, principal or wallet; no SDK call |
| `AstroX.Fresh` | packages/connect/ic/providers/astrox.ts:61-67 | the state after construction holds no IC object and no wallet and satisfies the consistency invariant |
| `AstroX.OptionsFor` | packages/connect/ic/providers/astrox.ts:103-121 | the options object of `IC.create` and `connect`: the three provider URLs `providerUrl` + `/#signer`, `/#transaction` and `/#authorize`, both permissions, and the config's host, ledger, `dev`, modes, `noUnify` and custom domain, with the given delegation targets |
| `AstroX.PreviousTargets` | packages/connect/ic/providers/astrox.ts:116 | the current IC object's delegation targets, or none when there is no IC object or it has none |
| `AstroXConnector.CustomAstroX.Wallets` | packages/connect/ic/providers/astrox.ts:73-75 | `wallets` has at most one entry, has one exactly when a wallet is stored, and then is `[wallet]`; a wallet is only ever stored while an IC object is held |
| `AstroXConnector.CustomAstroX.SetConfig` | packages/connect/ic/providers/astrox.ts:93-95 | only `#config` changes, to the merge of the old config and the supplied object; no SDK call |
| `AstroX.DelegationTargets` | packages/connect/ic/providers/astrox.ts:113-117 | the targets are the configured whitelist, then the extra whitelist (or none), then the previous IC object's targets (or none), in that order; a target is requested iff it is in one of the three, so previous targets are kept |
| `AstroX.Chosen` | packages/connect/ic/providers/astrox.ts:122 | with a whitelist argument `init` keeps the IC object it created. Without one it keeps `window.ic.astrox` when defined and the created one otherwise. It throws exactly when there is no whitelist and `window.ic` is undefined |
| `AstroX.Kept` | packages/connect/ic/providers/astrox.ts:103-122 | `init` goes on with an IC object iff `IC.create` returns and, without a whitelist, `window.ic` is defined; it is the created object with a whitelist, and `window.ic.astrox ?? created` without one |
| `AstroX.AuthCheck` | packages/connect/ic/providers/astrox.ts:142-152 | `isConnected` is true iff an IC object exists and the SDK answers `true`. It is false without one, without calling the SDK, and false when the SDK throws. The IC object afterwards is the state the SDK reports, or unchanged when it throws |
| `AstroX.InitSpec` | packages/connect/ic/providers/astrox.ts:101-140 | `init` makes one `IC.create` call with the merged targets (its options are `InitOptions`: `OptionsFor` over `DelegationTargets`). When that throws or, without a whitelist, `window.ic` is undefined: `INIT_FAILED` and nothing changes. When the kept object has no readable principal: `INIT_FAILED` and only the IC object is stored. Otherwise one authentication check follows. `ok` iff it answers false, or it answers true and the principal can be read again. `isConnected` is its answer. Without a connection the principal and identity are the kept object's first reads and the wallet is unchanged. With one, principal, identity and wallet are those of the object after the check. A failing second read keeps the re-read identity. The config is untouched, an existing IC object is never dropped, and the consistency invariant is preserved |
| `AstroX.InitCreatesOnce` | packages/connect/ic/providers/astrox.ts:101-121 | a run of `init` makes exactly one `IC.create` call, whether or not that call succeeds |
| `AstroX.NeedsReinit` | packages/connect/ic/providers/astrox.ts:163 | `createActor` re-runs `init` iff the IC object has no delegation targets or they do not include the canister |
| `AstroX.CreateActorSpec` | packages/connect/ic/providers/astrox.ts:155-176 | without an IC object: `NOT_INITIALIZED`, no change, no SDK call. Otherwise the last SDK call is `createActor` on the IC object held afterwards. The result is `ok` with the SDK's actor iff that call returns, and otherwise always `CREATE_ACTOR_FAILED`. When the canister is already a target, nothing changes. When it is not, the state and calls are those of `init([canisterId])`, whatever that `init` answers |
| `AstroX.CreateActorReinitsOnce` | packages/connect/ic/providers/astrox.ts:163-169 | with an IC object, `createActor` makes exactly one `IC.create` call (whether or not it succeeds) if the canister is not among its delegation targets and none if it is. The re-`init` asks for the canister, every configured target, and the previous targets at the end |
| `AstroX.GuardsBeforeInit` | packages/connect/ic/providers/astrox.ts:142-182 | on a freshly constructed connector, `connect` and `createActor` answer `NOT_INITIALIZED` without changing anything or calling the SDK, and `isConnected` is false |
| `AstroX.ConnectSpec` | packages/connect/ic/providers/astrox.ts:178-207 | without an IC object: `NOT_INITIALIZED`, no change, no SDK call. Otherwise exactly one SDK `connect` with the configured whitelist as targets. The result is `ok(true)` iff it returns and a principal can be read. Then the IC object is held in its state after `connect`, and principal, identity and wallet are read from it. Otherwise the error is always `CONNECT_FAILED`: only the IC object changes, to its state after `connect`, or not at all when `connect` throws. The wallet changes only on success |
| `AstroX.DisconnectSpec` | packages/connect/ic/providers/astrox.ts:209-217 | the only results are `ok(true)` and `DISCONNECT_FAILED`, the latter iff an IC object exists and the SDK throws. Without an IC object there is no SDK call. With one, the IC object afterwards is its state after `disconnect`, or unchanged when it throws. Identity, principal, wallet and config never change |
| `AstroX.TransferRequestFor` | packages/connect/ic/providers/astrox.ts:231-255 | the request exists iff the amount and a given fee are integral (`BigInt` throws otherwise). It carries the amount, the recipient, `standard` and `symbol` defaulting to `'ICP'`, and the fee defaulting to 0 |
| `AstroX.ClassifyTransfer` | packages/connect/ic/providers/astrox.ts:256-276 | `ok` iff the response has kind `'transaction-client-success'`, and then the height is its block height. `FAULTY_ADDRESS` iff the response is a string. Every other response, falsy ones included, and every exception give `TRANSFER_FAILED`. It never answers `NOT_INITIALIZED` |
| `AstroX.TransferSpec` | packages/connect/ic/providers/astrox.ts:219-277 | state unchanged. Without an IC object: `TRANSFER_FAILED` and no SDK call. When a `BigInt` conversion throws: `TRANSFER_FAILED` and no SDK call. Otherwise exactly one SDK call, whose answer `ClassifyTransfer` turns into the result: `ok` with the block height iff it reported success, `FAULTY_ADDRESS` iff it is a string, otherwise `TRANSFER_FAILED` |
| `AstroX.BalanceSpec` | packages/connect/ic/providers/astrox.ts:340-358 | state unchanged; one SDK call iff an IC object exists. `QUERY_BALANCE_FAILED` iff that call throws. Otherwise exactly one entry with `config.ledgerCanisterId`, decimals 8, name and symbol `'ICP'`. Its amount is the SDK's balance, or NaN without an IC object |
| `AstroXConnector.CustomAstroX.IsConnected` | packages/connect/ic/providers/astrox.ts:142-152 | answers as `AuthCheck`; only the IC object changes, to the state the SDK reports |
| `AstroXConnector.CustomAstroX.Init` | packages/connect/ic/providers/astrox.ts:101-140 | the fields, the result and the SDK calls are those of `InitSpec`, reached in the step order of the source (first reads, `isConnected`, re-reads); the invariant is kept |
| `AstroXConnector.CustomAstroX.CreateActor` | packages/connect/ic/providers/astrox.ts:155-176 | the fields, the result and the SDK calls are those of `CreateActorSpec` |
| `AstroXConnector.CustomAstroX.Connect` | packages/connect/ic/providers/astrox.ts:178-207 | the fields, the result and the SDK calls are those of `ConnectSpec` |
| `AstroXConnector.CustomAstroX.Disconnect` | packages/connect/ic/providers/astrox.ts:209-217 | the fields, the result and the SDK calls are those of `DisconnectSpec` |
| `AstroXConnector.CustomAstroX.RequestTransfer` | packages/connect/ic/providers/astrox.ts:219-277 | no field changes; the result and SDK calls are those of `TransferSpec` |
| `AstroXConnector.CustomAstroX.QueryBalance` | packages/connect/ic/providers/astrox.ts:340-358 | no field changes; the result and SDK calls are those of `BalanceSpec` |
| `Choose.ItemsOf` | packages/components/interaction/choose.tsx:65-72 | the pushed items, one per entry: the list has the metadata's length |
| `Choose.Collected` | packages/components/interaction/choose.tsx:64-74 | what the effect stores in `values`: the items when every input value is defined, `undefined` otherwise |
| `Choose.ItemsOfAt` | packages/components/interaction/choose.tsx:64-73 | with every input defined, the items have the metadata's length, and item `i` carries entry `i`'s name and input value |
| `Choose.CollectionAllOrNothing` | packages/components/interaction/choose.tsx:64-74 | `values` is undefined iff some entry's input value is undefined; otherwise it has the same length and order as `metadata.values`, with names copied and input values filled in |
| `Choose.Collect` | packages/components/interaction/choose.tsx:64-74 | the loop that pushes items and breaks to `undefined` computes exactly `Collected` |
| `Choose.ShowsResultPanel` | packages/components/interaction/choose.tsx:90 | the result panel shows iff items and value are both defined |
| `Choose.ShowsChoiceGrid` | packages/components/interaction/choose.tsx:118 | the grid shows iff items are defined and the value is not |
| `Choose.DisplayModesExclusive` | packages/components/interaction/choose.tsx:90-118 | result panel and choice grid are never shown together; without items neither shows, with items exactly one does |
| `Choose.SpanClassAsWritten` | packages/components/interaction/choose.tsx:137-153 | the class the code computes: the four `cond && 'ez-col-span-full'` clauses (`Clause`) under the comma operator (`Comma`, which yields its second operand), which is always either `false` or `'ez-col-span-full'` |
| `Choose.SpanOnlyLastClauseDecides` | packages/components/interaction/choose.tsx:137-153 | as written, a button gets `'ez-col-span-full'` iff the template is `'repeat(3, minmax(0, 1fr))'`, the count is 1 modulo 3 and it is the last button; otherwise its class is `false` |
| `Choose.SpanAtMostLast` | packages/components/interaction/choose.tsx:137-153 | as written, at most one button spans, the last; in the two-column template none does |
| `Choose.SpanCommaCounterexample` | packages/components/interaction/choose.tsx:137-153 | three items in two columns: the code as written gives the last button no class, the intended rule spans it |
| `Choose.SpanClassIntended` | packages/components/interaction/choose.tsx:137-153 | the corrected class: the same four clauses joined by logical or, again either `false` or `'ez-col-span-full'` |
| `Choose.SpanIntendedFillsLastRow` | packages/components/interaction/choose.tsx:137-153 | with the clauses joined by logical or, an odd last item spans under a configured two-column template. In three columns a lone last item spans and a last pair both span. No other button spans, and no template other than these two spans anything |
| `Choose.Render` | packages/components/interaction/choose.tsx:80-161 | the style keys are read through `StyleOf` (all absent without a custom style); paddings default to `'5px'`. The result panel, labelled and showing the value, appears iff items and value are defined. Without a value, the grid appears with the template defaulting to two columns. It has one button per item, in order, with its name and value, the loading flag, radius `'0.5rem'` and weight `'400'` by default, and the as-written span class |
| `Choose.LabelPrefix` | packages/components/interaction/choose.tsx:93 | the result text starts with `outputLabel: ` when a non-empty output label is configured, and with nothing otherwise |
| `Choose.ChooseView.constructor` | packages/components/interaction/choose.tsx:32-34 | no value, no items, not loading, no runtime call |
| `Choose.ChooseView.Effect` | packages/components/interaction/choose.tsx:57-78 | when shown, `value` is the runtime's output value and `values` the collected items. When hidden, both are unchanged. `loading` is unchanged, and exactly one `update_component(link, updated)` is issued in every case |
| `Choose.ChooseView.OnChoose` | packages/components/interaction/choose.tsx:36-45 | exactly one `refresh_interaction(link, v)`. Ends with `value = v`, `loading` false and the items unchanged, so with items the result panel shows |
| `Choose.ChooseView.OnClean` | packages/components/interaction/choose.tsx:47-52 | exactly one `refresh_interaction(link, undefined)`. Ends with `value` undefined, `loading` false and the items unchanged, so with items the grid shows |
| `Choose.ChooseView.ClickReset` | packages/components/interaction/choose.tsx:96 | while loading a Reset click changes nothing and calls nothing; otherwise it acts as `onClean` |
| `Choose.ChooseView.ClickChoice` | packages/components/interaction/choose.tsx:125-129 | while loading a choice click changes nothing and calls nothing; otherwise it acts as `onChoose` with the clicked item's value |
| `FormText.ShownSuffix` | packages/components/form/components/text.tsx:67-70 | the `suffix` prop wins when given (even empty), else the custom suffix (`CustomSuffix`, i.e. `custom?.suffix`); no suffix element appears when the chosen text is absent or empty |
| `FormText.Render` | packages/components/form/components/text.tsx:41-72 | nothing at all iff hidden. When shown, with the style keys read through `StyleOf`, the input displays the value, or `''` when it is undefined, with the chosen suffix and the custom placeholder. Defaults are padding `'5px'`, radius `'0.5rem'` and border style `'solid'` |
| `FormText.TextInputView.constructor` | packages/components/form/components/text.tsx:22 | no value and no `onValue` call |
| `FormText.TextInputView.SeedDefault` | packages/components/form/components/text.tsx:24-29 | it fires only while the value is undefined and a default is defined. It then adopts the default and calls `onValue(default)` once iff shown. Otherwise nothing changes, and once a default is defined the value stays defined |
| `FormText.TextInputView.OnChange` | packages/components/form/components/text.tsx:31-39 | input equal to the value: no change and no `onValue` call. A new input becomes the value even when hidden, and `onValue(input)` is called once iff shown. Afterwards the field displays the input, and `onValue` never receives `undefined` |

## Findings

| source | as written | input that shows it | evidently intended | confidence | as-written member | corrected member |
|---|---|---|---|---|---|---|
| packages/components/interaction/choose.tsx:137-153 | the four full-row clauses are joined by the comma operator, so only the last one (three columns, count 1 modulo 3, last item) decides the class | template `'repeat(2, minmax(0, 1fr))'` with three items: the third button gets no full-row class | the clauses joined by logical or: with a configured two-column template the odd last item, and with a three-column template the incomplete last row, span the full row. The clauses compare the configured template, so a grid drawn with the default two columns spans nothing even under this rule | not executed; high | `Choose.SpanCommaCounterexample` | `Choose.SpanIntendedFillsLastRow` |

`Choose.Render` keeps the class the code computes (`SpanClassAsWritten`),
because it models the rendered output. `SpanClassIntended` is the corrected
rule.

## Left out

- The wallet SDK (`IC.create`, `connect`, `isAuthenticated`, `createActor`, `disconnect`, `requestTransfer`, `queryBalance`, principals, identities, actors): foreign code. Its answers are the `Sdk` parameter. Each public operation asks each SDK function at most once, so taking answers as functions of the request loses nothing.
- `useFrame` (from `window.innerWidth`) in the SDK options, the `console.*` calls and the static `meta` record: browser state, logging and constants with no decision in them.
- AstroXConfig.Merge: a key other than the four optional ones cannot be set to an explicit `undefined`. For example, the setter accepts `{ whitelist: undefined }` (its argument is untyped), which would make the next `init` throw while spreading the whitelist. The model's config always holds a value for those keys.
- A call to `isAuthenticated`, `connect` or `disconnect` that throws is taken to leave the IC object as it was; a partial update made by a failing SDK call is not modelled.
- `window.ic.astrox` is the `injected` answer and `location.origin` is the constructor's `iiDerivationOrigin` parameter: browser globals.
- The `principal` and `config` getters return a field; in Dafny the fields are read directly.
- Floating point. `amount * 10 ** decimals` is taken as the already scaled `units`. So `decimals` (default 8) does not appear, and the conversion of 1.5 at 8 decimals to 150000000 is not modelled. The balance is kept as the raw e8s value, not divided by 10^8. `Number(...)` of a large block height or balance is taken as exact.
- `memo`, `createdAtTime` and `fromSubAccount` of `requestTransfer`: passed to the SDK unchanged, with no decision made on them.
- React: rendering cycles, hook dependency arrays, batching, JSX markup, CSS class strings other than the span rule, the `Button`/`Icon` components and `color`/`backgroundColor`, which are passed through unchanged. Each handler and effect is one sequential step. `loading` is set and cleared within each handler, so it is false between steps, and the click guards block nothing in practice.
- `parse_custom_style` and the runtime (`should_show`, `find_value`, `input_value`, `refresh_interaction`, `update_component`): external. The parsed style and the runtime's answers are parameters; the runtime calls are a log.
- `Choose.ChooseView.ClickChoice`: requires the grid to be showing and the index to be a button's, because the buttons exist only then.
- Async execution: every `await` is a sequential step; nothing runs concurrently.
- `TokensError`, `NFTsError`, `SignError` and the string values of the error tags: nothing in the modelled code uses them.
- The commented-out `balanceFromString`, `requestTransferNFT` and `signMessage`: dead code.
