/** The values the minting front end works on: a candy guard's configuration (one optional
    entry per guard kind), the wallet's owned assets with their remaining mint-limit counters,
    and the sparse per-mint argument record built from them. */
module CandyTypes {
  import opened Wrappers

  /** An account address (collection, mint, destination, merkle root, ...).
      Only equality between keys is ever used. */
  type PublicKey = nat

  // ---------------------------------------------------------------------------
  // Guard configuration, as fetched from the candy guard account.
  // Only the fields that the mint-argument builder reads are kept.
  // ---------------------------------------------------------------------------

  /** allocation, mintLimit */
  datatype IdGuard = IdGuard(id: nat)
  /** allowList */
  datatype AllowListGuard = AllowListGuard(merkleRoot: PublicKey)
  /** assetBurn, assetBurnMulti, nftBurn, nftGate */
  datatype CollectionGuard = CollectionGuard(requiredCollection: PublicKey)
  /** assetPayment, assetPaymentMulti, nftPayment */
  datatype CollectionPaymentGuard = CollectionPaymentGuard(requiredCollection: PublicKey, destination: PublicKey)
  /** assetMintLimit, nftMintLimit */
  datatype CollectionLimitGuard = CollectionLimitGuard(id: nat, requiredCollection: PublicKey)
  /** freezeSolPayment, solFixedFee, solPayment */
  datatype DestinationGuard = DestinationGuard(destination: PublicKey)
  /** freezeTokenPayment, token2022Payment, tokenPayment */
  datatype TokenAccountGuard = TokenAccountGuard(mint: PublicKey, destinationAta: PublicKey)
  /** tokenBurn, tokenGate */
  datatype MintGuard = MintGuard(mint: PublicKey)
  datatype GatekeeperGuard = GatekeeperGuard(gatekeeperNetwork: PublicKey, expireOnUse: bool)
  datatype SignerGuard = SignerGuard(signerKey: PublicKey)

  /** One optional entry per guard kind the builder inspects. */
  datatype GuardSet = GuardSet(
    allocation: Option<IdGuard>,
    allowList: Option<AllowListGuard>,
    assetBurn: Option<CollectionGuard>,
    assetBurnMulti: Option<CollectionGuard>,
    assetPayment: Option<CollectionPaymentGuard>,
    assetPaymentMulti: Option<CollectionPaymentGuard>,
    assetMintLimit: Option<CollectionLimitGuard>,
    freezeSolPayment: Option<DestinationGuard>,
    freezeTokenPayment: Option<TokenAccountGuard>,
    gatekeeper: Option<GatekeeperGuard>,
    mintLimit: Option<IdGuard>,
    nftBurn: Option<CollectionGuard>,
    nftGate: Option<CollectionGuard>,
    nftMintLimit: Option<CollectionLimitGuard>,
    nftPayment: Option<CollectionPaymentGuard>,
    solFixedFee: Option<DestinationGuard>,
    solPayment: Option<DestinationGuard>,
    thirdPartySigner: Option<SignerGuard>,
    token2022Payment: Option<TokenAccountGuard>,
    tokenBurn: Option<MintGuard>,
    tokenGate: Option<MintGuard>,
    tokenPayment: Option<TokenAccountGuard>)

  /** A labelled guard group (one mint phase). */
  datatype GuardGroup = GuardGroup(groupLabel: string, guards: GuardSet)

  /** The candy guard account: the top-level (ungrouped) guards and the groups. */
  datatype CandyGuard = CandyGuard(publicKey: PublicKey, guards: GuardSet, groups: seq<GuardGroup>)

  /** The candy machine account fields the transactions refer to. */
  datatype CandyMachine = CandyMachine(publicKey: PublicKey, mintAuthority: PublicKey, collectionMint: PublicKey)

  // ---------------------------------------------------------------------------
  // Owned assets.
  // ---------------------------------------------------------------------------

  datatype TokenStandard =
    | NonFungible | FungibleAsset | Fungible | NonFungibleEdition
    | ProgrammableNonFungible | ProgrammableNonFungibleEdition

  datatype Collection = Collection(verified: bool, key: PublicKey)
  datatype ProgrammableConfig = ProgrammableConfig(ruleSet: Option<PublicKey>)
  datatype Metadata = Metadata(
    collection: Option<Collection>,
    tokenStandard: Option<TokenStandard>,
    programmableConfig: Option<ProgrammableConfig>)

  /** A token-metadata asset owned by the wallet, with its remaining mint-limit counter
      (absent when no limit was fetched for it). */
  datatype OwnedToken = OwnedToken(publicKey: PublicKey, metadata: Metadata, nftMintLimit: Option<int>)

  datatype UpdateAuthority = UpdateAuthority(address: Option<PublicKey>)
  /** A core asset owned by the wallet. */
  datatype CoreAsset = CoreAsset(publicKey: PublicKey, updateAuthority: UpdateAuthority)

  // ---------------------------------------------------------------------------
  // Mint arguments: one optional field per guard kind.
  // ---------------------------------------------------------------------------

  /** allocation, mintLimit */
  datatype IdArgs = IdArgs(id: nat)
  datatype AllowListArgs = AllowListArgs(merkleRoot: PublicKey)
  datatype AssetBurnArgs = AssetBurnArgs(asset: PublicKey, requiredCollection: PublicKey)
  datatype AssetPaymentArgs = AssetPaymentArgs(asset: PublicKey, requiredCollection: PublicKey, destination: PublicKey)
  datatype AssetBurnMultiArgs = AssetBurnMultiArgs(assets: seq<PublicKey>, requiredCollection: PublicKey)
  datatype AssetPaymentMultiArgs = AssetPaymentMultiArgs(assets: seq<PublicKey>, requiredCollection: PublicKey, destination: PublicKey)
  datatype AssetMintLimitArgs = AssetMintLimitArgs(id: nat, asset: PublicKey)
  /** freezeSolPayment, solFixedFee, solPayment */
  datatype DestinationArgs = DestinationArgs(destination: PublicKey)
  datatype FreezeTokenPaymentArgs = FreezeTokenPaymentArgs(destinationAta: PublicKey, mint: PublicKey, nftRuleSet: Option<PublicKey>)
  datatype GatekeeperArgs = GatekeeperArgs(expireOnUse: bool, gatekeeperNetwork: PublicKey)
  /** nftBurn, nftGate */
  datatype NftArgs = NftArgs(mint: PublicKey, requiredCollection: PublicKey, tokenStandard: TokenStandard, ruleSet: Option<PublicKey>)
  datatype NftMintLimitArgs = NftMintLimitArgs(id: nat, mint: PublicKey, requiredCollection: PublicKey, tokenStandard: TokenStandard, ruleSet: Option<PublicKey>)
  datatype NftPaymentArgs = NftPaymentArgs(destination: PublicKey, mint: PublicKey, requiredCollection: PublicKey, tokenStandard: TokenStandard, ruleSet: Option<PublicKey>)
  /** token2022Payment, tokenPayment */
  datatype TokenAccountArgs = TokenAccountArgs(destinationAta: PublicKey, mint: PublicKey)
  /** tokenBurn, tokenGate */
  datatype TokenMintArgs = TokenMintArgs(mint: PublicKey)
  datatype SignerArgs = SignerArgs(signer: PublicKey)

  /** The sparse argument record of one mint (a `Partial` of the full set). */
  datatype MintArgs = MintArgs(
    allocation: Option<IdArgs>,
    allowList: Option<AllowListArgs>,
    assetBurn: Option<AssetBurnArgs>,
    assetBurnMulti: Option<AssetBurnMultiArgs>,
    assetPayment: Option<AssetPaymentArgs>,
    assetPaymentMulti: Option<AssetPaymentMultiArgs>,
    assetMintLimit: Option<AssetMintLimitArgs>,
    freezeSolPayment: Option<DestinationArgs>,
    freezeTokenPayment: Option<FreezeTokenPaymentArgs>,
    gatekeeper: Option<GatekeeperArgs>,
    mintLimit: Option<IdArgs>,
    nftBurn: Option<NftArgs>,
    nftGate: Option<NftArgs>,
    nftMintLimit: Option<NftMintLimitArgs>,
    nftPayment: Option<NftPaymentArgs>,
    solFixedFee: Option<DestinationArgs>,
    solPayment: Option<DestinationArgs>,
    thirdPartySigner: Option<SignerArgs>,
    token2022Payment: Option<TokenAccountArgs>,
    tokenBurn: Option<TokenMintArgs>,
    tokenGate: Option<TokenMintArgs>,
    tokenPayment: Option<TokenAccountArgs>)
}
