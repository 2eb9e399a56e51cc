/** Mint-argument construction: one sparse argument record per requested mint, picking
    owned assets for the asset-based guards and consuming the shared per-token mint-limit
    counters in place. */
module MintArgBuilder {
  import opened Wrappers
  import opened CandyTypes

  // ---------------------------------------------------------------------------
  // Asset selection
  // ---------------------------------------------------------------------------

  predicate InCollection(md: Metadata, c: PublicKey)
  {
    md.collection.Some? && md.collection.value.key == c
  }

  /** An owned token without its counter: all that the guards without a limit look at. */
  datatype AssetView = AssetView(publicKey: PublicKey, metadata: Metadata)

  function View(ts: seq<OwnedToken>): (r: seq<AssetView>)
    ensures |r| == |ts|
    ensures forall k :: 0 <= k < |ts| ==> r[k] == AssetView(ts[k].publicKey, ts[k].metadata)
  {
    seq(|ts|, k requires 0 <= k < |ts| => AssetView(ts[k].publicKey, ts[k].metadata))
  }

  /** Index of the first owned token of the collection (the `find` of the guards without a limit). */
  function FindInCollection(vs: seq<AssetView>, c: PublicKey): (r: Option<nat>)
    ensures r.Some? ==> r.value < |vs| && InCollection(vs[r.value].metadata, c)
    ensures r.Some? ==> forall j :: 0 <= j < r.value ==> !InCollection(vs[j].metadata, c)
    ensures r.None? <==> forall j :: 0 <= j < |vs| ==> !InCollection(vs[j].metadata, c)
  {
    if |vs| == 0 then None
    else if InCollection(vs[0].metadata, c) then Some(0)
    else match FindInCollection(vs[1..], c)
      case None => None
      case Some(k) => Some(k + 1)
  }

  /** The token has a counter and it is positive; an absent counter counts as not positive. */
  predicate HasMintsLeft(t: OwnedToken)
  {
    t.nftMintLimit.Some? && t.nftMintLimit.value > 0
  }

  /** What the `find` callback of the two mint-limit guards accepts. */
  predicate Selectable(t: OwnedToken, c: PublicKey)
  {
    InCollection(t.metadata, c) && HasMintsLeft(t)
  }

  /** Index of the first owned token of the collection with a positive counter. */
  function FindWithMintsLeft(ts: seq<OwnedToken>, c: PublicKey): (r: Option<nat>)
    ensures r.Some? ==> r.value < |ts| && Selectable(ts[r.value], c)
    ensures r.Some? ==> forall j :: 0 <= j < r.value ==> !Selectable(ts[j], c)
    ensures r.None? <==> forall j :: 0 <= j < |ts| ==> !Selectable(ts[j], c)
  {
    if |ts| == 0 then None
    else if Selectable(ts[0], c) then Some(0)
    else match FindWithMintsLeft(ts[1..], c)
      case None => None
      case Some(k) => Some(k + 1)
  }

  /** The core assets whose update authority is the collection (the `filter`/`map`). */
  function AuthorityAssets(core: seq<CoreAsset>, c: PublicKey): (r: seq<PublicKey>)
    ensures |r| <= |core|
    ensures forall x :: x in r <==> exists a :: a in core && a.updateAuthority.address == Some(c) && a.publicKey == x
  {
    if |core| == 0 then []
    else
      var rest := AuthorityAssets(core[1..], c);
      assert forall a :: a in core[1..] ==> a in core;
      if core[0].updateAuthority.address == Some(c) then [core[0].publicKey] + rest else rest
  }

  /** A single core asset contributes its key exactly when its update authority is the collection. */
  lemma {:induction false} AuthorityAssetsSingle(x: CoreAsset, c: PublicKey)
    ensures AuthorityAssets([x], c) == if x.updateAuthority.address == Some(c) then [x.publicKey] else []
  {
    assert [x][1..] == [];
  }

  /** The selection keeps the order of the core assets: the assets of a concatenation are
      those of the first part followed by those of the second. */
  lemma {:induction false} AuthorityAssetsAppend(a: seq<CoreAsset>, b: seq<CoreAsset>, c: PublicKey)
    ensures AuthorityAssets(a + b, c) == AuthorityAssets(a, c) + AuthorityAssets(b, c)
    decreases |a|
  {
    if |a| == 0 {
      assert a + b == b;
    } else {
      assert (a + b)[0] == a[0] && (a + b)[1..] == a[1..] + b;
      AuthorityAssetsAppend(a[1..], b, c);
    }
  }

  /** Token standard and rule set of a selected NFT. */
  datatype NftStandard = NftStandard(tokenStandard: TokenStandard, ruleSet: Option<PublicKey>)

  function ResolveStandard(md: Metadata): (r: NftStandard)
    ensures r.tokenStandard == ProgrammableNonFungible <==> md.tokenStandard == Some(ProgrammableNonFungible)
    ensures r.tokenStandard == ProgrammableNonFungible || r.tokenStandard == NonFungible
    ensures r.ruleSet.Some? <==>
              r.tokenStandard == ProgrammableNonFungible
              && md.programmableConfig.Some? && md.programmableConfig.value.ruleSet.Some?
    ensures r.ruleSet.Some? ==> r.ruleSet == md.programmableConfig.value.ruleSet
  {
    if md.tokenStandard == Some(ProgrammableNonFungible) then
      var ruleSet :=
        if md.programmableConfig.Some? && md.programmableConfig.value.ruleSet.Some?
        then md.programmableConfig.value.ruleSet else None;
      NftStandard(ProgrammableNonFungible, ruleSet)
    else NftStandard(NonFungible, None)
  }

  // ---------------------------------------------------------------------------
  // Inventory relations
  // ---------------------------------------------------------------------------

  /** Same tokens in the same order; only counters may differ. */
  predicate SameAssets(a: seq<OwnedToken>, b: seq<OwnedToken>)
  {
    View(a) == View(b)
  }

  /** A counter never appears or disappears, never grows, and is only lowered while positive,
      so it never drops below zero. */
  predicate Drains(before: Option<int>, after: Option<int>)
  {
    (before.None? ==> after.None?)
    && (before.Some? ==> after.Some? && after.value <= before.value && (after.value < before.value ==> after.value >= 0))
  }

  predicate CountersOnlyDrain(a: seq<OwnedToken>, b: seq<OwnedToken>)
  {
    |a| == |b| && forall k :: 0 <= k < |a| ==> Drains(a[k].nftMintLimit, b[k].nftMintLimit)
  }

  function Remaining(t: OwnedToken): int
  {
    if t.nftMintLimit.Some? then t.nftMintLimit.value else 0
  }

  /** Sum of all counters of the inventory. */
  function Budget(ts: seq<OwnedToken>): int
  {
    if |ts| == 0 then 0 else Budget(ts[..|ts| - 1]) + Remaining(ts[|ts| - 1])
  }

  lemma {:induction false} BudgetAfterUpdate(ts: seq<OwnedToken>, k: nat, t: OwnedToken)
    requires k < |ts|
    ensures Budget(ts[k := t]) == Budget(ts) - Remaining(ts[k]) + Remaining(t)
  {
    var n := |ts|;
    if k == n - 1 {
      assert ts[k := t][..n - 1] == ts[..n - 1];
    } else {
      assert ts[k := t][..n - 1] == ts[..n - 1][k := t];
      BudgetAfterUpdate(ts[..n - 1], k, t);
    }
  }

  /** The token with its counter lowered by one. */
  function Consumed(t: OwnedToken): OwnedToken
    requires t.nftMintLimit.Some?
  {
    t.(nftMintLimit := Some(t.nftMintLimit.value - 1))
  }

  /** A mint-limit guard's selection: the first token of the collection with a positive
      counter, whose counter is then lowered by one. */
  function LimitStep(ts: seq<OwnedToken>, c: PublicKey): (r: (Option<nat>, seq<OwnedToken>))
    ensures r.0 == FindWithMintsLeft(ts, c)
    ensures SameAssets(ts, r.1) && CountersOnlyDrain(ts, r.1)
    ensures r.0.None? ==> r.1 == ts
    ensures r.0.Some? ==>
              var k := r.0.value;
              k < |ts| && HasMintsLeft(ts[k])
              && r.1[k].nftMintLimit == Some(ts[k].nftMintLimit.value - 1)
              && forall j :: 0 <= j < |ts| && j != k ==> r.1[j] == ts[j]
  {
    var k := FindWithMintsLeft(ts, c);
    if k.None? then (None, ts)
    else
      var after := ts[k.value := Consumed(ts[k.value])];
      assert View(after) == View(ts);
      (k, after)
  }

  lemma LimitStepBudget(ts: seq<OwnedToken>, c: PublicKey)
    ensures Budget(LimitStep(ts, c).1) == Budget(ts) - (if LimitStep(ts, c).0.Some? then 1 else 0)
  {
    var k := FindWithMintsLeft(ts, c);
    if k.Some? {
      BudgetAfterUpdate(ts, k.value, Consumed(ts[k.value]));
    }
  }

  // ---------------------------------------------------------------------------
  // One mint's arguments
  // ---------------------------------------------------------------------------

  /** Every field of a record stands for a guard that is present, and the third-party-signer
      field is never filled in. */
  predicate OnlyActiveGuards(gs: GuardSet, a: MintArgs)
  {
    && (a.allocation.Some? ==> gs.allocation.Some?)
    && (a.allowList.Some? ==> gs.allowList.Some?)
    && (a.assetBurn.Some? ==> gs.assetBurn.Some?)
    && (a.assetBurnMulti.Some? ==> gs.assetBurnMulti.Some?)
    && (a.assetPayment.Some? ==> gs.assetPayment.Some?)
    && (a.assetPaymentMulti.Some? ==> gs.assetPaymentMulti.Some?)
    && (a.assetMintLimit.Some? ==> gs.assetMintLimit.Some?)
    && (a.freezeSolPayment.Some? ==> gs.freezeSolPayment.Some?)
    && (a.freezeTokenPayment.Some? ==> gs.freezeTokenPayment.Some?)
    && (a.gatekeeper.Some? ==> gs.gatekeeper.Some?)
    && (a.mintLimit.Some? ==> gs.mintLimit.Some?)
    && (a.nftBurn.Some? ==> gs.nftBurn.Some?)
    && (a.nftGate.Some? ==> gs.nftGate.Some?)
    && (a.nftMintLimit.Some? ==> gs.nftMintLimit.Some?)
    && (a.nftPayment.Some? ==> gs.nftPayment.Some?)
    && (a.solFixedFee.Some? ==> gs.solFixedFee.Some?)
    && (a.solPayment.Some? ==> gs.solPayment.Some?)
    && a.thirdPartySigner.None?
    && (a.token2022Payment.Some? ==> gs.token2022Payment.Some?)
    && (a.tokenBurn.Some? ==> gs.tokenBurn.Some?)
    && (a.tokenGate.Some? ==> gs.tokenGate.Some?)
    && (a.tokenPayment.Some? ==> gs.tokenPayment.Some?)
  }

  /** Guards whose argument needs nothing but the configuration: the field is there
      exactly when the guard is (the multi-asset guards included, since their filtered
      list is always an array, never falsy). */
  predicate ConfigFieldsPresent(gs: GuardSet, a: MintArgs)
  {
    && (a.allocation.Some? <==> gs.allocation.Some?)
    && (a.assetBurnMulti.Some? <==> gs.assetBurnMulti.Some?)
    && (a.assetPaymentMulti.Some? <==> gs.assetPaymentMulti.Some?)
    && (a.freezeSolPayment.Some? <==> gs.freezeSolPayment.Some?)
    && (a.freezeTokenPayment.Some? <==> gs.freezeTokenPayment.Some?)
    && (a.gatekeeper.Some? <==> gs.gatekeeper.Some?)
    && (a.mintLimit.Some? <==> gs.mintLimit.Some?)
    && (a.solFixedFee.Some? <==> gs.solFixedFee.Some?)
    && (a.solPayment.Some? <==> gs.solPayment.Some?)
    && (a.token2022Payment.Some? <==> gs.token2022Payment.Some?)
    && (a.tokenBurn.Some? <==> gs.tokenBurn.Some?)
    && (a.tokenGate.Some? <==> gs.tokenGate.Some?)
    && (a.tokenPayment.Some? <==> gs.tokenPayment.Some?)
  }

  /** `j` is the first owned token of the collection. */
  ghost predicate IsFirstInCollection(vs: seq<AssetView>, c: PublicKey, j: int)
  {
    0 <= j < |vs| && InCollection(vs[j].metadata, c) && forall i :: 0 <= i < j ==> !InCollection(vs[i].metadata, c)
  }

  /** `j` is the first owned token of the collection with a positive counter. */
  ghost predicate IsFirstWithMintsLeft(ts: seq<OwnedToken>, c: PublicKey, j: int)
  {
    0 <= j < |ts| && Selectable(ts[j], c) && forall i :: 0 <= i < j ==> !Selectable(ts[i], c)
  }

  ghost predicate AnyInCollection(vs: seq<AssetView>, c: PublicKey)
  {
    exists j :: 0 <= j < |vs| && InCollection(vs[j].metadata, c)
  }

  function NftArgsOf(t: AssetView, c: PublicKey): NftArgs
  {
    var std := ResolveStandard(t.metadata);
    NftArgs(t.publicKey, c, std.tokenStandard, std.ruleSet)
  }

  /** The argument of a guard that needs nothing but its configuration. */
  function MapSome<G, A>(guard: Option<G>, f: G -> A): (r: Option<A>)
    ensures r.Some? <==> guard.Some?
    ensures r.Some? ==> r.value == f(guard.value)
  {
    if guard.Some? then Some(f(guard.value)) else None
  }

  /** allowList: the merkle root of the allowlist held for the group's label, if one is. */
  function AllowListArg(g: GuardGroup, allowLists: map<string, seq<PublicKey>>, merkleRoot: seq<PublicKey> -> PublicKey)
    : (r: Option<AllowListArgs>)
    ensures r.Some? <==> g.guards.allowList.Some? && g.groupLabel in allowLists
    ensures r.Some? ==> r.value.merkleRoot == merkleRoot(allowLists[g.groupLabel])
  {
    if g.guards.allowList.Some? && g.groupLabel in allowLists
    then Some(AllowListArgs(merkleRoot(allowLists[g.groupLabel]))) else None
  }

  /** assetBurn: the first owned token of the collection. */
  function AssetBurnArg(guard: Option<CollectionGuard>, vs: seq<AssetView>): (r: Option<AssetBurnArgs>)
    ensures r.Some? <==> guard.Some? && AnyInCollection(vs, guard.value.requiredCollection)
    ensures r.Some? ==>
              var c := guard.value.requiredCollection;
              r.value.requiredCollection == c && exists j :: IsFirstInCollection(vs, c, j) && r.value.asset == vs[j].publicKey
  {
    if guard.None? then None
    else
      var c := guard.value.requiredCollection;
      var k := FindInCollection(vs, c);
      if k.None? then None else Some(AssetBurnArgs(vs[k.value].publicKey, c))
  }

  /** assetPayment: the first owned token of the collection, paid to the destination. */
  function AssetPaymentArg(guard: Option<CollectionPaymentGuard>, vs: seq<AssetView>): (r: Option<AssetPaymentArgs>)
    ensures r.Some? <==> guard.Some? && AnyInCollection(vs, guard.value.requiredCollection)
    ensures r.Some? ==>
              var c := guard.value.requiredCollection;
              r.value.requiredCollection == c && r.value.destination == guard.value.destination
              && exists j :: IsFirstInCollection(vs, c, j) && r.value.asset == vs[j].publicKey
  {
    if guard.None? then None
    else
      var cfg := guard.value;
      var k := FindInCollection(vs, cfg.requiredCollection);
      if k.None? then None else Some(AssetPaymentArgs(vs[k.value].publicKey, cfg.requiredCollection, cfg.destination))
  }

  /** assetBurnMulti: every core asset of the collection, possibly none, yet always present. */
  function AssetBurnMultiArg(guard: Option<CollectionGuard>, core: seq<CoreAsset>): (r: Option<AssetBurnMultiArgs>)
    ensures r.Some? <==> guard.Some?
    ensures r.Some? ==>
              r.value.requiredCollection == guard.value.requiredCollection
              && r.value.assets == AuthorityAssets(core, guard.value.requiredCollection)
  {
    if guard.None? then None
    else Some(AssetBurnMultiArgs(AuthorityAssets(core, guard.value.requiredCollection), guard.value.requiredCollection))
  }

  /** assetPaymentMulti: as assetBurnMulti, with the destination. */
  function AssetPaymentMultiArg(guard: Option<CollectionPaymentGuard>, core: seq<CoreAsset>): (r: Option<AssetPaymentMultiArgs>)
    ensures r.Some? <==> guard.Some?
    ensures r.Some? ==>
              r.value.requiredCollection == guard.value.requiredCollection
              && r.value.destination == guard.value.destination
              && r.value.assets == AuthorityAssets(core, guard.value.requiredCollection)
  {
    if guard.None? then None
    else
      var cfg := guard.value;
      Some(AssetPaymentMultiArgs(AuthorityAssets(core, cfg.requiredCollection), cfg.requiredCollection, cfg.destination))
  }

  /** nftBurn, nftGate: the first owned token of the collection, with its standard. */
  function NftArg(guard: Option<CollectionGuard>, vs: seq<AssetView>): (r: Option<NftArgs>)
    ensures r.Some? <==> guard.Some? && AnyInCollection(vs, guard.value.requiredCollection)
    ensures r.Some? ==>
              var c := guard.value.requiredCollection;
              exists j :: IsFirstInCollection(vs, c, j) && r.value == NftArgsOf(vs[j], c)
  {
    if guard.None? then None
    else
      var c := guard.value.requiredCollection;
      var k := FindInCollection(vs, c);
      if k.None? then None else Some(NftArgsOf(vs[k.value], c))
  }

  /** nftPayment: the first owned token of the collection, with its standard and the destination. */
  function NftPaymentArg(guard: Option<CollectionPaymentGuard>, vs: seq<AssetView>): (r: Option<NftPaymentArgs>)
    ensures r.Some? <==> guard.Some? && AnyInCollection(vs, guard.value.requiredCollection)
    ensures r.Some? ==>
              var c := guard.value.requiredCollection;
              r.value.destination == guard.value.destination
              && exists j ::
                   IsFirstInCollection(vs, c, j)
                   && NftArgs(r.value.mint, r.value.requiredCollection, r.value.tokenStandard, r.value.ruleSet) == NftArgsOf(vs[j], c)
  {
    if guard.None? then None
    else
      var cfg := guard.value;
      var k := FindInCollection(vs, cfg.requiredCollection);
      if k.None? then None
      else
        var std := ResolveStandard(vs[k.value].metadata);
        Some(NftPaymentArgs(cfg.destination, vs[k.value].publicKey, cfg.requiredCollection, std.tokenStandard, std.ruleSet))
  }

  /** Every field of one mint's record except the two mint-limit ones, which consume
      counters. The finds here read only collection metadata. */
  function FixedArgs(g: GuardGroup, allowLists: map<string, seq<PublicKey>>, merkleRoot: seq<PublicKey> -> PublicKey,
                     vs: seq<AssetView>, core: seq<CoreAsset>): (r: MintArgs)
    ensures OnlyActiveGuards(g.guards, r) && ConfigFieldsPresent(g.guards, r)
    ensures r.assetMintLimit.None? && r.nftMintLimit.None?
    ensures r.freezeTokenPayment.Some? ==> r.freezeTokenPayment.value.nftRuleSet.None?
  {
    var gs := g.guards;
    MintArgs(
      allocation := MapSome(gs.allocation, (x: IdGuard) => IdArgs(x.id)),
      allowList := AllowListArg(g, allowLists, merkleRoot),
      assetBurn := AssetBurnArg(gs.assetBurn, vs),
      assetBurnMulti := AssetBurnMultiArg(gs.assetBurnMulti, core),
      assetPayment := AssetPaymentArg(gs.assetPayment, vs),
      assetPaymentMulti := AssetPaymentMultiArg(gs.assetPaymentMulti, core),
      assetMintLimit := None,
      freezeSolPayment := MapSome(gs.freezeSolPayment, (x: DestinationGuard) => DestinationArgs(x.destination)),
      // the rule set variable of the loop is never assigned, so nftRuleSet stays undefined
      freezeTokenPayment :=
        MapSome(gs.freezeTokenPayment, (x: TokenAccountGuard) => FreezeTokenPaymentArgs(x.destinationAta, x.mint, None)),
      gatekeeper := MapSome(gs.gatekeeper, (x: GatekeeperGuard) => GatekeeperArgs(x.expireOnUse, x.gatekeeperNetwork)),
      mintLimit := MapSome(gs.mintLimit, (x: IdGuard) => IdArgs(x.id)),
      nftBurn := NftArg(gs.nftBurn, vs),
      nftGate := NftArg(gs.nftGate, vs),
      nftMintLimit := None,
      nftPayment := NftPaymentArg(gs.nftPayment, vs),
      solFixedFee := MapSome(gs.solFixedFee, (x: DestinationGuard) => DestinationArgs(x.destination)),
      solPayment := MapSome(gs.solPayment, (x: DestinationGuard) => DestinationArgs(x.destination)),
      // a third-party signer needs a back end, so this guard never gets an argument
      thirdPartySigner := None,
      token2022Payment := MapSome(gs.token2022Payment, (x: TokenAccountGuard) => TokenAccountArgs(x.destinationAta, x.mint)),
      tokenBurn := MapSome(gs.tokenBurn, (x: MintGuard) => TokenMintArgs(x.mint)),
      tokenGate := MapSome(gs.tokenGate, (x: MintGuard) => TokenMintArgs(x.mint)),
      tokenPayment := MapSome(gs.tokenPayment, (x: TokenAccountGuard) => TokenAccountArgs(x.destinationAta, x.mint)))
  }

  /** What each field of a record `r` holds: the per-guard selection for the guards that pick
      owned assets or read the allowlists, the guard's own configuration for the others. */
  lemma {:induction false} FixedArgsFields(g: GuardGroup, allowLists: map<string, seq<PublicKey>>,
                                           merkleRoot: seq<PublicKey> -> PublicKey,
                                           vs: seq<AssetView>, core: seq<CoreAsset>, r: MintArgs)
    requires r == FixedArgs(g, allowLists, merkleRoot, vs, core)
    // the fields that select owned assets or read the allowlists
    ensures r.allowList == AllowListArg(g, allowLists, merkleRoot)
    ensures r.assetBurn == AssetBurnArg(g.guards.assetBurn, vs)
    ensures r.assetPayment == AssetPaymentArg(g.guards.assetPayment, vs)
    ensures r.assetBurnMulti == AssetBurnMultiArg(g.guards.assetBurnMulti, core)
    ensures r.assetPaymentMulti == AssetPaymentMultiArg(g.guards.assetPaymentMulti, core)
    ensures r.nftBurn == NftArg(g.guards.nftBurn, vs) && r.nftGate == NftArg(g.guards.nftGate, vs)
    ensures r.nftPayment == NftPaymentArg(g.guards.nftPayment, vs)
    // the fields that copy the guard's configuration
    ensures g.guards.allocation.Some? ==> r.allocation == Some(IdArgs(g.guards.allocation.value.id))
    ensures g.guards.mintLimit.Some? ==> r.mintLimit == Some(IdArgs(g.guards.mintLimit.value.id))
    ensures g.guards.freezeSolPayment.Some? ==>
              r.freezeSolPayment == Some(DestinationArgs(g.guards.freezeSolPayment.value.destination))
    ensures g.guards.solFixedFee.Some? ==> r.solFixedFee == Some(DestinationArgs(g.guards.solFixedFee.value.destination))
    ensures g.guards.solPayment.Some? ==> r.solPayment == Some(DestinationArgs(g.guards.solPayment.value.destination))
    ensures g.guards.freezeTokenPayment.Some? ==>
              var cfg := g.guards.freezeTokenPayment.value;
              r.freezeTokenPayment == Some(FreezeTokenPaymentArgs(cfg.destinationAta, cfg.mint, None))
    ensures g.guards.token2022Payment.Some? ==>
              var cfg := g.guards.token2022Payment.value;
              r.token2022Payment == Some(TokenAccountArgs(cfg.destinationAta, cfg.mint))
    ensures g.guards.tokenPayment.Some? ==>
              var cfg := g.guards.tokenPayment.value;
              r.tokenPayment == Some(TokenAccountArgs(cfg.destinationAta, cfg.mint))
    ensures g.guards.gatekeeper.Some? ==>
              var cfg := g.guards.gatekeeper.value;
              r.gatekeeper == Some(GatekeeperArgs(cfg.expireOnUse, cfg.gatekeeperNetwork))
    ensures g.guards.tokenBurn.Some? ==> r.tokenBurn == Some(TokenMintArgs(g.guards.tokenBurn.value.mint))
    ensures g.guards.tokenGate.Some? ==> r.tokenGate == Some(TokenMintArgs(g.guards.tokenGate.value.mint))
  {
  }

  // ---------------------------------------------------------------------------
  // The two mint-limit guards, which share the per-token counters
  // ---------------------------------------------------------------------------

  /** `after` is `ts` with the counter of token `j` lowered by one, that counter having been
      positive, and every other token unchanged. */
  predicate ConsumedOnlyAt(ts: seq<OwnedToken>, after: seq<OwnedToken>, j: nat)
  {
    |after| == |ts| && j < |ts| && HasMintsLeft(ts[j])
    && after[j].nftMintLimit == Some(ts[j].nftMintLimit.value - 1)
    && after[j].publicKey == ts[j].publicKey && after[j].metadata == ts[j].metadata
    && forall i :: 0 <= i < |ts| && i != j ==> after[i] == ts[i]
  }

  /** assetMintLimit: the first token of the collection with a positive counter. */
  function AssetMintLimitStep(guard: Option<CollectionLimitGuard>, ts: seq<OwnedToken>)
    : (r: (Option<AssetMintLimitArgs>, seq<OwnedToken>))
    ensures r.0.Some? <==>
              guard.Some? && exists j :: 0 <= j < |ts| && Selectable(ts[j], guard.value.requiredCollection)
    ensures SameAssets(ts, r.1) && CountersOnlyDrain(ts, r.1)
    ensures r.0.None? ==> r.1 == ts
    ensures r.0.Some? ==>
              exists j :: IsFirstWithMintsLeft(ts, guard.value.requiredCollection, j) && ConsumedOnlyAt(ts, r.1, j)
                && r.0.value == AssetMintLimitArgs(guard.value.id, ts[j].publicKey)
  {
    if guard.None? then (None, ts)
    else
      var step := LimitStep(ts, guard.value.requiredCollection);
      if step.0.None? then (None, ts)
      else (Some(AssetMintLimitArgs(guard.value.id, ts[step.0.value].publicKey)), step.1)
  }

  /** nftMintLimit: as assetMintLimit, with the token standard of the token taken. */
  function NftMintLimitStep(guard: Option<CollectionLimitGuard>, ts: seq<OwnedToken>)
    : (r: (Option<NftMintLimitArgs>, seq<OwnedToken>))
    ensures r.0.Some? <==>
              guard.Some? && exists j :: 0 <= j < |ts| && Selectable(ts[j], guard.value.requiredCollection)
    ensures SameAssets(ts, r.1) && CountersOnlyDrain(ts, r.1)
    ensures r.0.None? ==> r.1 == ts
    ensures r.0.Some? ==>
              var c := guard.value.requiredCollection;
              exists j :: IsFirstWithMintsLeft(ts, c, j) && ConsumedOnlyAt(ts, r.1, j)
                && var std := ResolveStandard(ts[j].metadata);
                   r.0.value == NftMintLimitArgs(guard.value.id, ts[j].publicKey, c, std.tokenStandard, std.ruleSet)
  {
    if guard.None? then (None, ts)
    else
      var c := guard.value.requiredCollection;
      var step := LimitStep(ts, c);
      if step.0.None? then (None, ts)
      else
        var t := ts[step.0.value];
        var std := ResolveStandard(t.metadata);
        (Some(NftMintLimitArgs(guard.value.id, t.publicKey, c, std.tokenStandard, std.ruleSet)), step.1)
  }

  /** Filling in the two mint-limit fields, each only for an active guard, keeps a record's
      fields to the active guards. */
  lemma {:induction false} LimitsKeepGuards(gs: GuardSet, a: MintArgs, x: Option<AssetMintLimitArgs>, y: Option<NftMintLimitArgs>)
    requires OnlyActiveGuards(gs, a) && ConfigFieldsPresent(gs, a)
    requires x.Some? ==> gs.assetMintLimit.Some?
    requires y.Some? ==> gs.nftMintLimit.Some?
    ensures OnlyActiveGuards(gs, a.(assetMintLimit := x, nftMintLimit := y))
    ensures ConfigFieldsPresent(gs, a.(assetMintLimit := x, nftMintLimit := y))
  {
  }

  /** One iteration of the builder's loop: the record of one mint and the inventory it leaves.
      assetMintLimit is evaluated before nftMintLimit and so consumes first; the other fields
      read only the counter-free view, which neither decrement changes. */
  function UnitArgs(g: GuardGroup, allowLists: map<string, seq<PublicKey>>, merkleRoot: seq<PublicKey> -> PublicKey,
                    ts: seq<OwnedToken>, core: seq<CoreAsset>): (r: (MintArgs, seq<OwnedToken>))
    ensures OnlyActiveGuards(g.guards, r.0) && ConfigFieldsPresent(g.guards, r.0)
    ensures SameAssets(ts, r.1) && CountersOnlyDrain(ts, r.1)
  {
    var assetLimit := AssetMintLimitStep(g.guards.assetMintLimit, ts);
    var nftLimit := NftMintLimitStep(g.guards.nftMintLimit, assetLimit.1);
    var fixed := FixedArgs(g, allowLists, merkleRoot, View(ts), core);
    LimitsKeepGuards(g.guards, fixed, assetLimit.0, nftLimit.0);
    DrainTransitive(ts, assetLimit.1, nftLimit.1);
    (fixed.(assetMintLimit := assetLimit.0, nftMintLimit := nftLimit.0), nftLimit.1)
  }

  /** The mint-limit fields of one record: assetMintLimit is there exactly when some token
      of its collection has a positive counter; nftMintLimit, when one still has after that;
      and each names a token whose counter was positive. */
  lemma UnitLimitFields(g: GuardGroup, allowLists: map<string, seq<PublicKey>>, merkleRoot: seq<PublicKey> -> PublicKey,
                        ts: seq<OwnedToken>, core: seq<CoreAsset>)
    ensures var r := UnitArgs(g, allowLists, merkleRoot, ts, core);
            && (r.0.assetMintLimit.Some? <==>
                  g.guards.assetMintLimit.Some?
                  && exists j :: 0 <= j < |ts| && Selectable(ts[j], g.guards.assetMintLimit.value.requiredCollection))
            && (r.0.nftMintLimit.Some? ==>
                  exists j :: 0 <= j < |ts| && Selectable(ts[j], g.guards.nftMintLimit.value.requiredCollection)
                    && r.0.nftMintLimit.value.mint == ts[j].publicKey)
            && (g.guards.nftMintLimit.Some? && r.0.assetMintLimit.None?
                && (exists j :: 0 <= j < |ts| && Selectable(ts[j], g.guards.nftMintLimit.value.requiredCollection))
                ==> r.0.nftMintLimit.Some?)
  {
    var assetLimit := AssetMintLimitStep(g.guards.assetMintLimit, ts);
    var mid := assetLimit.1;
    var nftLimit := NftMintLimitStep(g.guards.nftMintLimit, mid);
    if nftLimit.0.Some? {
      var c := g.guards.nftMintLimit.value.requiredCollection;
      var j :| IsFirstWithMintsLeft(mid, c, j) && ConsumedOnlyAt(mid, nftLimit.1, j);
      assert Drains(ts[j].nftMintLimit, mid[j].nftMintLimit);
      assert Selectable(ts[j], c) && mid[j].publicKey == ts[j].publicKey by {
        assert View(ts)[j] == View(mid)[j];
      }
    }
  }

  /** A record with its two mint-limit fields cleared. */
  function WithoutLimits(a: MintArgs): MintArgs
  {
    a.(assetMintLimit := None, nftMintLimit := None)
  }

  /** Apart from its mint-limit fields, a record is the one the counter-free view gives. */
  lemma UnitFixedFields(g: GuardGroup, allowLists: map<string, seq<PublicKey>>, merkleRoot: seq<PublicKey> -> PublicKey,
                        ts: seq<OwnedToken>, core: seq<CoreAsset>)
    ensures WithoutLimits(UnitArgs(g, allowLists, merkleRoot, ts, core).0)
            == FixedArgs(g, allowLists, merkleRoot, View(ts), core)
  {
    var f := FixedArgs(g, allowLists, merkleRoot, View(ts), core);
    assert f.assetMintLimit.None? && f.nftMintLimit.None?;
  }

  /** The number of counter decrements a record stands for. */
  function Charges(a: MintArgs): nat
  {
    (if a.assetMintLimit.Some? then 1 else 0) + (if a.nftMintLimit.Some? then 1 else 0)
  }

  function TotalCharges(records: seq<MintArgs>): nat
  {
    if |records| == 0 then 0 else TotalCharges(records[..|records| - 1]) + Charges(records[|records| - 1])
  }

  lemma ConsumedOnlyAtBudget(ts: seq<OwnedToken>, after: seq<OwnedToken>, j: nat)
    requires ConsumedOnlyAt(ts, after, j)
    ensures Budget(after) == Budget(ts) - 1
  {
    assert after == ts[j := after[j]];
    BudgetAfterUpdate(ts, j, after[j]);
  }

  /** One mint lowers the total of all counters by exactly the number of mint-limit fields
      it fills: by two when both guards are active and both find a token. */
  lemma UnitBudget(g: GuardGroup, allowLists: map<string, seq<PublicKey>>, merkleRoot: seq<PublicKey> -> PublicKey,
                   ts: seq<OwnedToken>, core: seq<CoreAsset>)
    ensures var r := UnitArgs(g, allowLists, merkleRoot, ts, core);
            Budget(r.1) == Budget(ts) - Charges(r.0)
  {
    var assetLimit := AssetMintLimitStep(g.guards.assetMintLimit, ts);
    if assetLimit.0.Some? {
      var j :| IsFirstWithMintsLeft(ts, g.guards.assetMintLimit.value.requiredCollection, j)
               && ConsumedOnlyAt(ts, assetLimit.1, j);
      ConsumedOnlyAtBudget(ts, assetLimit.1, j);
    }
    var mid := assetLimit.1;
    var nftLimit := NftMintLimitStep(g.guards.nftMintLimit, mid);
    if nftLimit.0.Some? {
      var j :| IsFirstWithMintsLeft(mid, g.guards.nftMintLimit.value.requiredCollection, j)
               && ConsumedOnlyAt(mid, nftLimit.1, j);
      ConsumedOnlyAtBudget(mid, nftLimit.1, j);
    }
  }

  /** With both mint-limit guards on one collection, a mint takes both its units from the
      same token's counter when that counter allows it; no other token changes. */
  lemma SharedCounterChargedTwice(assetGuard: CollectionLimitGuard, nftGuard: CollectionLimitGuard,
                                  ts: seq<OwnedToken>, j: nat)
    requires assetGuard.requiredCollection == nftGuard.requiredCollection
    requires IsFirstWithMintsLeft(ts, assetGuard.requiredCollection, j)
    requires ts[j].nftMintLimit.value >= 2
    ensures var first := AssetMintLimitStep(Some(assetGuard), ts);
            var second := NftMintLimitStep(Some(nftGuard), first.1);
            && first.0 == Some(AssetMintLimitArgs(assetGuard.id, ts[j].publicKey))
            && second.0.Some? && second.0.value.mint == ts[j].publicKey
            && second.1[j].nftMintLimit == Some(ts[j].nftMintLimit.value - 2)
            && forall i :: 0 <= i < |ts| && i != j ==> second.1[i] == ts[i]
  {
    var c := assetGuard.requiredCollection;
    var first := AssetMintLimitStep(Some(assetGuard), ts);
    var k :| IsFirstWithMintsLeft(ts, c, k) && ConsumedOnlyAt(ts, first.1, k)
             && first.0.value == AssetMintLimitArgs(assetGuard.id, ts[k].publicKey);
    assert k == j;
    var mid := first.1;
    assert IsFirstWithMintsLeft(mid, c, j);
    var second := NftMintLimitStep(Some(nftGuard), mid);
    var k' :| IsFirstWithMintsLeft(mid, c, k') && ConsumedOnlyAt(mid, second.1, k')
              && second.0.value.mint == mid[k'].publicKey;
    assert k' == j;
  }

  // ---------------------------------------------------------------------------
  // The whole batch
  // ---------------------------------------------------------------------------

  lemma DrainTransitive(a: seq<OwnedToken>, b: seq<OwnedToken>, c: seq<OwnedToken>)
    requires CountersOnlyDrain(a, b) && CountersOnlyDrain(b, c)
    ensures CountersOnlyDrain(a, c)
  {
    forall k | 0 <= k < |a|
      ensures Drains(a[k].nftMintLimit, c[k].nftMintLimit)
    {
      assert Drains(a[k].nftMintLimit, b[k].nftMintLimit) && Drains(b[k].nftMintLimit, c[k].nftMintLimit);
    }
  }

  /** The records of the first `n` mints and the inventory they leave: the loop run `n` times. */
  function Batch(g: GuardGroup, allowLists: map<string, seq<PublicKey>>, merkleRoot: seq<PublicKey> -> PublicKey,
                 ts: seq<OwnedToken>, core: seq<CoreAsset>, n: nat): (r: (seq<MintArgs>, seq<OwnedToken>))
    ensures |r.0| == n
    ensures forall i :: 0 <= i < n ==> OnlyActiveGuards(g.guards, r.0[i]) && ConfigFieldsPresent(g.guards, r.0[i])
    ensures SameAssets(ts, r.1) && CountersOnlyDrain(ts, r.1)
    ensures forall k :: 0 <= k < |ts| && Remaining(ts[k]) >= 0 ==> Remaining(r.1[k]) >= 0
    decreases n
  {
    if n == 0 then ([], ts)
    else
      var prev := Batch(g, allowLists, merkleRoot, ts, core, n - 1);
      var unit := UnitArgs(g, allowLists, merkleRoot, prev.1, core);
      DrainTransitive(ts, prev.1, unit.1);
      (prev.0 + [unit.0], unit.1)
  }

  /** One more turn of the loop extends the batch by the record `UnitArgs` builds on the
      inventory the batch so far has left. */
  lemma {:induction false} BatchStep(g: GuardGroup, allowLists: map<string, seq<PublicKey>>,
                                     merkleRoot: seq<PublicKey> -> PublicKey,
                                     ts: seq<OwnedToken>, core: seq<CoreAsset>, n: nat,
                                     prev: (seq<MintArgs>, seq<OwnedToken>), unit: (MintArgs, seq<OwnedToken>))
    requires prev == Batch(g, allowLists, merkleRoot, ts, core, n)
    requires unit == UnitArgs(g, allowLists, merkleRoot, prev.1, core)
    ensures Batch(g, allowLists, merkleRoot, ts, core, n + 1) == (prev.0 + [unit.0], unit.1)
  {
  }

  /** Guards that select an asset without a limit pick the same token for every mint of the
      batch and consume nothing: every record, apart from its mint-limit fields, is the one
      the initial inventory gives. */
  lemma {:induction false} BatchFixedFieldsUniform(g: GuardGroup, allowLists: map<string, seq<PublicKey>>,
                                                   merkleRoot: seq<PublicKey> -> PublicKey,
                                                   ts: seq<OwnedToken>, core: seq<CoreAsset>, n: nat)
    ensures forall i :: 0 <= i < n ==>
              WithoutLimits(Batch(g, allowLists, merkleRoot, ts, core, n).0[i])
              == FixedArgs(g, allowLists, merkleRoot, View(ts), core)
  {
    if n > 0 {
      BatchFixedFieldsUniform(g, allowLists, merkleRoot, ts, core, n - 1);
      var prev := Batch(g, allowLists, merkleRoot, ts, core, n - 1);
      var unit := UnitArgs(g, allowLists, merkleRoot, prev.1, core);
      UnitFixedFields(g, allowLists, merkleRoot, prev.1, core);
      assert View(prev.1) == View(ts);
      UniformSnoc(prev.0, unit.0, FixedArgs(g, allowLists, merkleRoot, View(ts), core));
    }
  }

  /** Records that all agree with `f` outside their mint-limit fields still do after one more such record. */
  lemma {:induction false} UniformSnoc(records: seq<MintArgs>, a: MintArgs, f: MintArgs)
    requires forall i :: 0 <= i < |records| ==> WithoutLimits(records[i]) == f
    requires WithoutLimits(a) == f
    ensures forall i :: 0 <= i < |records| + 1 ==> WithoutLimits((records + [a])[i]) == f
  {
    forall i | 0 <= i < |records| + 1
      ensures WithoutLimits((records + [a])[i]) == f
    {
      if i < |records| {
        assert (records + [a])[i] == records[i];
      }
    }
  }

  /** Across the batch, the counters' total falls by exactly the number of mint-limit fields filled. */
  lemma {:induction false} BatchBudget(g: GuardGroup, allowLists: map<string, seq<PublicKey>>,
                                       merkleRoot: seq<PublicKey> -> PublicKey,
                                       ts: seq<OwnedToken>, core: seq<CoreAsset>, n: nat)
    ensures var r := Batch(g, allowLists, merkleRoot, ts, core, n);
            Budget(r.1) == Budget(ts) - TotalCharges(r.0)
  {
    if n > 0 {
      BatchBudget(g, allowLists, merkleRoot, ts, core, n - 1);
      var prev := Batch(g, allowLists, merkleRoot, ts, core, n - 1);
      UnitBudget(g, allowLists, merkleRoot, prev.1, core);
      var r := Batch(g, allowLists, merkleRoot, ts, core, n);
      assert r.0[..n - 1] == prev.0;
    }
  }

  /** A group with only a solPayment guard gives, for every mint, a record holding nothing but
      the solPayment destination. */
  lemma SolPaymentOnly(g: GuardGroup, allowLists: map<string, seq<PublicKey>>, merkleRoot: seq<PublicKey> -> PublicKey,
                       ts: seq<OwnedToken>, core: seq<CoreAsset>, n: nat, destination: PublicKey)
    requires g.guards == GuardSet(None, None, None, None, None, None, None, None, None, None, None,
                                  None, None, None, None, None, Some(DestinationGuard(destination)),
                                  None, None, None, None, None)
    ensures var r := Batch(g, allowLists, merkleRoot, ts, core, n);
            forall i :: 0 <= i < n ==>
              r.0[i] == MintArgs(None, None, None, None, None, None, None, None, None, None, None,
                                 None, None, None, None, None, Some(DestinationArgs(destination)),
                                 None, None, None, None, None)
  {
    BatchFixedFieldsUniform(g, allowLists, merkleRoot, ts, core, n);
  }

  // ---------------------------------------------------------------------------
  // The builder, updating the shared inventory in place
  // ---------------------------------------------------------------------------

  /** Find the first token of the collection with a positive counter and lower that counter
      in place. */
  method TakeMintLimit(tokens: array<OwnedToken>, c: PublicKey) returns (k: Option<nat>)
    modifies tokens
    ensures (k, tokens[..]) == LimitStep(old(tokens[..]), c)
  {
    k := FindWithMintsLeft(tokens[..], c);
    if k.Some? {
      var t := tokens[k.value];
      tokens[k.value] := t.(nftMintLimit := Some(t.nftMintLimit.value - 1));
    }
  }

  /** The body of the builder's loop: the record of one mint. */
  method BuildUnitArgs(g: GuardGroup, allowLists: map<string, seq<PublicKey>>, merkleRoot: seq<PublicKey> -> PublicKey,
                       tokens: array<OwnedToken>, core: seq<CoreAsset>) returns (args: MintArgs)
    modifies tokens
    ensures (args, tokens[..]) == UnitArgs(g, allowLists, merkleRoot, old(tokens[..]), core)
  {
    ghost var ts := tokens[..];
    ghost var assetLimit := AssetMintLimitStep(g.guards.assetMintLimit, ts);
    ghost var nftLimit := NftMintLimitStep(g.guards.nftMintLimit, assetLimit.1);
    ghost var fixed := FixedArgs(g, allowLists, merkleRoot, View(ts), core);
    args := FixedArgs(g, allowLists, merkleRoot, View(tokens[..]), core);
    if g.guards.assetMintLimit.Some? {
      var cfg := g.guards.assetMintLimit.value;
      var k := TakeMintLimit(tokens, cfg.requiredCollection);
      if k.Some? {
        args := args.(assetMintLimit := Some(AssetMintLimitArgs(cfg.id, tokens[k.value].publicKey)));
      }
    }
    assert tokens[..] == assetLimit.1 && args == fixed.(assetMintLimit := assetLimit.0);
    if g.guards.nftMintLimit.Some? {
      var cfg := g.guards.nftMintLimit.value;
      var k := TakeMintLimit(tokens, cfg.requiredCollection);
      if k.Some? {
        var std := ResolveStandard(tokens[k.value].metadata);
        args := args.(nftMintLimit := Some(NftMintLimitArgs(cfg.id, tokens[k.value].publicKey, cfg.requiredCollection,
                                                            std.tokenStandard, std.ruleSet)));
      }
    }
    assert tokens[..] == nftLimit.1 && args == fixed.(assetMintLimit := assetLimit.0, nftMintLimit := nftLimit.0);
  }

  /** `mintArgsBuilder`: `amount` records (none for a non-positive amount), consuming the
      counters of the shared inventory as it goes. */
  method BuildMintArgs(g: GuardGroup, allowLists: map<string, seq<PublicKey>>, merkleRoot: seq<PublicKey> -> PublicKey,
                       tokens: array<OwnedToken>, core: seq<CoreAsset>, amount: int) returns (records: seq<MintArgs>)
    modifies tokens
    ensures (records, tokens[..]) == Batch(g, allowLists, merkleRoot, old(tokens[..]), core, if amount < 0 then 0 else amount)
  {
    ghost var n: nat := if amount < 0 then 0 else amount;
    records := [];
    var i := 0;
    while i < amount
      invariant 0 <= i <= n
      invariant (records, tokens[..]) == Batch(g, allowLists, merkleRoot, old(tokens[..]), core, i)
    {
      ghost var before := tokens[..];
      var args := BuildUnitArgs(g, allowLists, merkleRoot, tokens, core);
      BatchStep(g, allowLists, merkleRoot, old(tokens[..]), core, i, (records, before), (args, tokens[..]));
      records := records + [args];
      i := i + 1;
    }
    assert i == n;
  }
}
