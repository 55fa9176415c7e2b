/**
 * The configuration record of the AstroX connector: the constructor's defaults,
 * and the object spread `{ ...current, ...supplied }` used by the constructor and
 * by the `config` setter.
 */
module AstroXConfig {
  import opened Js

  /** The SDK's delegation modes ('global' | 'domain'). */
  datatype DelegationMode = Global | Domain

  datatype Config = Config(
    whitelist: seq<string>,
    providerUrl: string,
    ledgerCanisterId: string,
    ledgerHost: Option<string>,
    noUnify: Option<bool>,
    host: string,
    dev: bool,
    delegationModes: Option<seq<DelegationMode>>,
    customDomain: Option<string>)

  /**
   * A partial configuration object as a caller supplies it. `None` means the key
   * is absent. The optional keys of Config take `Some(None)` for a key that is
   * present with the value `undefined`, which the spread copies like any other value.
   */
  datatype ConfigPatch = ConfigPatch(
    whitelist: Option<seq<string>>,
    providerUrl: Option<string>,
    ledgerCanisterId: Option<string>,
    ledgerHost: Option<Option<string>>,
    noUnify: Option<Option<bool>>,
    host: Option<string>,
    dev: Option<bool>,
    delegationModes: Option<Option<seq<DelegationMode>>>,
    customDomain: Option<Option<string>>)

  /** The keys of Config. */
  datatype Key = Whitelist | ProviderUrl | LedgerCanisterId | LedgerHost | NoUnify | Host | Dev | DelegationModes | CustomDomain

  /** The empty object `{}`. */
  const NoKeys := ConfigPatch(None, None, None, None, None, None, None, None, None)

  predicate Supplied(p: ConfigPatch, k: Key) {
    match k
    case Whitelist => p.whitelist.Some?
    case ProviderUrl => p.providerUrl.Some?
    case LedgerCanisterId => p.ledgerCanisterId.Some?
    case LedgerHost => p.ledgerHost.Some?
    case NoUnify => p.noUnify.Some?
    case Host => p.host.Some?
    case Dev => p.dev.Some?
    case DelegationModes => p.delegationModes.Some?
    case CustomDomain => p.customDomain.Some?
  }

  /** Key `k` of `c` holds the value that `p` supplies for it. */
  predicate HoldsSupplied(c: Config, p: ConfigPatch, k: Key) {
    match k
    case Whitelist => p.whitelist == Some(c.whitelist)
    case ProviderUrl => p.providerUrl == Some(c.providerUrl)
    case LedgerCanisterId => p.ledgerCanisterId == Some(c.ledgerCanisterId)
    case LedgerHost => p.ledgerHost == Some(c.ledgerHost)
    case NoUnify => p.noUnify == Some(c.noUnify)
    case Host => p.host == Some(c.host)
    case Dev => p.dev == Some(c.dev)
    case DelegationModes => p.delegationModes == Some(c.delegationModes)
    case CustomDomain => p.customDomain == Some(c.customDomain)
  }

  /** `a` and `b` hold the same value at key `k`. */
  predicate SameAt(a: Config, b: Config, k: Key) {
    match k
    case Whitelist => a.whitelist == b.whitelist
    case ProviderUrl => a.providerUrl == b.providerUrl
    case LedgerCanisterId => a.ledgerCanisterId == b.ledgerCanisterId
    case LedgerHost => a.ledgerHost == b.ledgerHost
    case NoUnify => a.noUnify == b.noUnify
    case Host => a.host == b.host
    case Dev => a.dev == b.dev
    case DelegationModes => a.delegationModes == b.delegationModes
    case CustomDomain => a.customDomain == b.customDomain
  }

  /** The constructor's defaults; `iiDerivationOrigin` is the value types.ts derives from the page origin. */
  function Defaults(iiDerivationOrigin: Option<string>): Config {
    Config(
      whitelist := [],
      providerUrl := "https://63k2f-nyaaa-aaaah-aakla-cai.raw.ic0.app",
      ledgerCanisterId := "ryjl3-tyaaa-aaaaa-aaaba-cai",
      ledgerHost := Some("https://boundary.ic0.app/"),
      noUnify := Some(false),
      host := "https://icp-api.io",
      dev := false,
      delegationModes := Some([Global]),
      customDomain := iiDerivationOrigin)
  }

  /** `{ ...c, ...p }`: every supplied key takes the supplied value, every other key keeps its value. */
  function Merge(c: Config, p: ConfigPatch): (r: Config)
    ensures forall k :: Supplied(p, k) ==> HoldsSupplied(r, p, k)
    ensures forall k :: !Supplied(p, k) ==> SameAt(r, c, k)
  {
    Config(
      whitelist := p.whitelist.GetOr(c.whitelist),
      providerUrl := p.providerUrl.GetOr(c.providerUrl),
      ledgerCanisterId := p.ledgerCanisterId.GetOr(c.ledgerCanisterId),
      ledgerHost := p.ledgerHost.GetOr(c.ledgerHost),
      noUnify := p.noUnify.GetOr(c.noUnify),
      host := p.host.GetOr(c.host),
      dev := p.dev.GetOr(c.dev),
      delegationModes := p.delegationModes.GetOr(c.delegationModes),
      customDomain := p.customDomain.GetOr(c.customDomain))
  }

  /** The keys of `p` and `q` together, `q`'s value winning where both supply one: `{ ...p, ...q }`. */
  function Then(p: ConfigPatch, q: ConfigPatch): ConfigPatch {
    ConfigPatch(
      if q.whitelist.Some? then q.whitelist else p.whitelist,
      if q.providerUrl.Some? then q.providerUrl else p.providerUrl,
      if q.ledgerCanisterId.Some? then q.ledgerCanisterId else p.ledgerCanisterId,
      if q.ledgerHost.Some? then q.ledgerHost else p.ledgerHost,
      if q.noUnify.Some? then q.noUnify else p.noUnify,
      if q.host.Some? then q.host else p.host,
      if q.dev.Some? then q.dev else p.dev,
      if q.delegationModes.Some? then q.delegationModes else p.delegationModes,
      if q.customDomain.Some? then q.customDomain else p.customDomain)
  }

  /** Setting nothing changes nothing. */
  lemma MergeNothing(c: Config)
    ensures Merge(c, NoKeys) == c
  {
  }

  /** Last write wins: two successive writes of the setter act as one write of both objects spread in order. */
  lemma MergeLastWriteWins(c: Config, p: ConfigPatch, q: ConfigPatch)
    ensures Merge(Merge(c, p), q) == Merge(c, Then(p, q))
  {
  }

  /** Writing the same object twice is the same as writing it once. */
  lemma MergeIdempotent(c: Config, p: ConfigPatch)
    ensures Merge(Merge(c, p), p) == Merge(c, p)
  {
    MergeLastWriteWins(c, p, p);
    assert Then(p, p) == p;
  }
}
