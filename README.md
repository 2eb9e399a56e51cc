# Candy-machine mint helper, modelled in Dafny

This project models the mint helper of a Solana candy-machine front end (`utils/mintHelper.ts`).
That module takes the fetched configuration of a candy guard and turns it into mint transactions.

- **Guard selection** (`GuardSelector`). It picks the guard group a mint button asks for. The fallback is a synthetic `"default"` group made from the top-level guards. When no candy guard was fetched, the result has no guards at all.
- **Mint arguments** (`MintArgBuilder`). It builds one sparse argument record per requested mint, with one optional field per guard kind. The owned tokens are an `array` of records. The two mint-limit guards lower the `nftMintLimit` counter of the token they pick, in place, on that shared array.
  - The methods `TakeMintLimit`, `BuildUnitArgs` and `BuildMintArgs` are the imperative loop. Each is proved equal to a specification function: `LimitStep`, `UnitArgs` or `Batch`.
  - The lemmas state what the source promises about those functions.
- **Allowlist route** (`RouteBuilder`). It builds the optional route instruction that records the user's allowlist proof on chain.
- **Transaction packing** (`TransactionPacker`). `combineTransactions` is a greedy packer that splits whenever the size check fails. It is modelled as a method with a loop.
- **Batch minting** (`BatchMinter`). `buildTxs` packs mint instructions into transactions. It retries a mint by rewinding its loop index. Every transaction it seals has its leading compute-unit placeholder replaced by a simulated estimate.
  - The method is proved against `LoopStep`, a function for one pass of its loop.
  - The method's precondition is that every single mint fits in a fresh builder, and under it the loop ends.
  - Without it, `RetriesForever` proves that once the loop tries an oversized mint on a fresh builder, it stays at that mint forever.
  - `StartNeverFinishes` proves the loop then never gets past that mint from its start. This holds for any size check where dropping instructions keeps a fitting builder fitting, as a byte limit does.
  - `buildTx`, the one-mint transaction, is modelled as instruction ordering.
- **Compute units** (`ComputeUnits`). This is the decision `getRequiredCU` takes on a simulation result.

Across the project:
- Keys are natural numbers, compared only for equality.
- Instructions are constructors of `Transactions.Instr`.
- The SDK and RPC calls are function parameters: the size check, the simulation, the signer collection, the merkle root and proof, and the on-chain proof lookup.

The guards that select an asset without a limit are assetBurn, assetPayment, nftBurn, nftGate and nftPayment. They read the tokens' keys and metadata, never the counter. The model therefore computes them once per mint:
- They are computed on the counter-free view (`View`) of the inventory at the start of the mint.
- `LimitStep` proves that the decrements leave that view unchanged.
- So the result equals evaluating each guard at its own place in the source's sequence of `if`s.

## Model

| member | source | states |
|---|---|---|
| GuardSelector.FindGroup | utils/mintHelper.ts:58-60 | the index found is that of the first group carrying the label, and none is found exactly when no group carries it |
| GuardSelector.ChooseGuardToUse | utils/mintHelper.ts:54-77 | the first group with the requested label is returned as it is; otherwise a fetched candy guard gives `"default"` with its top-level guards; otherwise `"default"` with no guards; the label is the requested one or `"default"`, and guards are missing exactly when no candy guard was fetched |
| Transactions.GroupOf | utils/mintHelper.ts:548 | the group argument is unscoped exactly for the label `"default"`, and is the label itself otherwise |
| ComputeUnits.RequiredComputeUnits | utils/mintHelper.ts:582-594 | 800,000 on a simulation error and on a missing or zero consumption, otherwise the consumption plus 20,000; every result exceeds 20,000, so the trailing fallback is never taken |
| RouteBuilder.BuildRoute | utils/mintHelper.ts:410-447 | no result exactly when the allowList guard is absent; at most one instruction; exactly one when the label has an allowlist and no proof is recorded on chain yet; that instruction is the allowList route of the candy machine and guard, scoped by the label, carrying the allowlist's merkle root and the user's proof |
| RouteBuilder.RouteMatchesMintArg | utils/mintHelper.ts:426 | when a route is built, the mint arguments of the same group carry an allowList field with the same merkle root |
| MintArgBuilder.FindInCollection | utils/mintHelper.ts:107-111 | the token found is the first whose metadata names the collection, and none is found exactly when no token does |
| MintArgBuilder.FindWithMintsLeft | utils/mintHelper.ts:177-182 | the token found is the first of the collection with a positive counter (an absent counter is not positive), and none is found exactly when no token qualifies |
| MintArgBuilder.AuthorityAssets | utils/mintHelper.ts:125-132 | the listed keys are exactly those of the core assets whose update authority is the collection, possibly none |
| MintArgBuilder.AuthorityAssetsSingle | utils/mintHelper.ts:125-132 | one core asset contributes its key exactly when its update authority is the collection, and nothing otherwise |
| MintArgBuilder.AuthorityAssetsAppend | utils/mintHelper.ts:161-168 | the selection keeps the core assets' order, one entry per matching asset: the list for a concatenation is the first part's list followed by the second's |
| MintArgBuilder.ResolveStandard | utils/mintHelper.ts:231-246 | the standard is programmable exactly when the metadata says programmable, otherwise non-fungible; a rule set is present exactly for a programmable token whose programmable config and rule set are both present, and is the configured one |
| MintArgBuilder.LimitStep | utils/mintHelper.ts:175-186 | the first token of the collection with a positive counter is taken and its counter lowered by exactly one; every other token is unchanged; keys and metadata never change; with no such token nothing changes |
| MintArgBuilder.LimitStepBudget | utils/mintHelper.ts:186 | one selection lowers the sum of all counters by one when it finds a token and by nothing otherwise |
| MintArgBuilder.AllowListArg | utils/mintHelper.ts:95-101 | the allowList field is there exactly when the guard is present and the label has an allowlist, and it carries that allowlist's merkle root |
| MintArgBuilder.AssetBurnArg | utils/mintHelper.ts:104-120 | the field is there exactly when the guard is present and some owned token is in its collection, and it names the first such token |
| MintArgBuilder.AssetPaymentArg | utils/mintHelper.ts:138-155 | as assetBurn, with the guard's destination |
| MintArgBuilder.AssetBurnMultiArg | utils/mintHelper.ts:122-136 | the field is there exactly when the guard is, even with no matching asset, and lists the core assets of the collection |
| MintArgBuilder.AssetPaymentMultiArg | utils/mintHelper.ts:157-173 | as assetBurnMulti, with the guard's destination |
| MintArgBuilder.NftArg | utils/mintHelper.ts:220-254 | the field is there exactly when the guard is present and some owned token is in its collection; it names the first such token with its resolved standard and rule set |
| MintArgBuilder.NftPaymentArg | utils/mintHelper.ts:331-365 | as nftBurn, with the guard's destination |
| MintArgBuilder.FixedArgs | utils/mintHelper.ts:87-405 | every field of the record stands for a present guard; thirdPartySigner never gives a field; the guards that need only their configuration give their field exactly when present; freezeTokenPayment never carries a rule set |
| MintArgBuilder.FixedArgsFields | utils/mintHelper.ts:91-403 | each asset-selecting or allowlist field is the per-guard selection above; each configuration-only field, when its guard is present, copies exactly that guard's id, destination, mint, destination token account, gatekeeper network and expire-on-use flag, with no rule set for freezeTokenPayment |
| MintArgBuilder.AssetMintLimitStep | utils/mintHelper.ts:175-193 | the field is there exactly when the guard is present and some token of its collection has a positive counter; it then names the first such token, whose counter alone is lowered by one; otherwise the inventory is unchanged |
| MintArgBuilder.NftMintLimitStep | utils/mintHelper.ts:291-329 | as assetMintLimit, with the resolved standard and rule set of the token taken |
| MintArgBuilder.UnitArgs | utils/mintHelper.ts:88-404 | one mint's record has fields only for present guards, has the configuration-only fields exactly for present guards, and leaves an inventory with the same tokens whose counters only drain |
| MintArgBuilder.UnitLimitFields | utils/mintHelper.ts:175-329 | assetMintLimit is filled exactly when a token of its collection has a positive counter; nftMintLimit names a token that had one; and nftMintLimit is filled whenever such a token exists and assetMintLimit took nothing |
| MintArgBuilder.UnitFixedFields | utils/mintHelper.ts:104-365 | apart from the two mint-limit fields, a mint's record is the one the counter-free view of its inventory gives |
| MintArgBuilder.UnitBudget | utils/mintHelper.ts:175-329 | one mint lowers the sum of all counters by exactly the number of mint-limit fields it fills |
| MintArgBuilder.SharedCounterChargedTwice | utils/mintHelper.ts:175-329 | with both mint-limit guards on one collection, a mint takes two units from the same first qualifying token when its counter is at least two, and changes no other token |
| MintArgBuilder.Batch | utils/mintHelper.ts:87-405 | `n` mints give exactly `n` records, each with fields only for present guards; the inventory keeps its tokens, its counters only drain, and a counter that was not negative never becomes negative |
| MintArgBuilder.BatchFixedFieldsUniform | utils/mintHelper.ts:104-365 | the guards that select an asset without a limit pick the same token for every mint of the batch: every record, apart from its mint-limit fields, is the one the initial inventory gives |
| MintArgBuilder.BatchBudget | utils/mintHelper.ts:87-405 | across the batch the sum of all counters falls by exactly the number of mint-limit fields filled |
| MintArgBuilder.SolPaymentOnly | utils/mintHelper.ts:373-377 | a group whose only guard is solPayment gives, for every mint, a record with nothing but the solPayment destination |
| MintArgBuilder.TakeMintLimit | utils/mintHelper.ts:177-186 | the in-place update of the shared array is the selection and decrement `LimitStep` specifies |
| MintArgBuilder.BuildUnitArgs | utils/mintHelper.ts:88-404 | one turn of the builder's loop returns the record and leaves the array as `UnitArgs` specifies |
| MintArgBuilder.BuildMintArgs | utils/mintHelper.ts:79-407 | the records returned and the array left are those of `Batch` for `amount` mints, none for a non-positive amount |
| TransactionPacker.CombineTransactions | utils/mintHelper.ts:450-475 | empty input gives no builders and vice versa; the builders' instructions, in order, are the input groups', in order; each builder holds a run of consecutive groups, non-empty except perhaps the first; every builder but the last carries the lookup tables and the last carries none; a builder of two groups or more, or a first builder of one, fits; every builder the check accepted on the way fits, which means each prefix of two groups or more of every run, and the first run's first group alone; no builder could have taken the first group of the next one |
| TransactionPacker.PrefixesFitEach | utils/mintHelper.ts:459-469 | a run grown under the size check fits at each of its checked prefixes: two groups or more, and the first group alone for the first builder |
| BatchMinter.FreshBuilder | utils/mintHelper.ts:530-533 | a fresh batch builder holds a compute-unit limit followed by a compute-unit price |
| BatchMinter.MintArgsAt | utils/mintHelper.ts:539-542 | mint `i` carries entry `i` of the argument array when there is one, and none otherwise |
| BatchMinter.MintFor | utils/mintHelper.ts:543-551 | mint `i` creates asset `i` of the batch with arguments `i`, for the candy machine, its collection and guard, scoped by the label |
| BatchMinter.AllMints | utils/mintHelper.ts:537-552 | there is one mint instruction per asset, the `i`-th being mint `i` |
| BatchMinter.SealItems | utils/mintHelper.ts:554-561 | sealing drops the first instruction (the placeholder limit) and puts a limit above 20,000 in front, keeping the rest in order; the transaction carries the lookup tables and blockhash and the signers of its instructions |
| BatchMinter.Seal | utils/mintHelper.ts:553-575 | a sealed run of mints is the simulated limit, the price of 5, then the mints in order, the estimate being that of the run simulated under the 1,400,000 placeholder with the lookup tables set |
| BatchMinter.LoopStep | utils/mintHelper.ts:537-576 | one pass of the loop leaves the index where it was (a rewind) or moves it on by one |
| BatchMinter.StepKeepsInv | utils/mintHelper.ts:537-576 | when every mint fits a fresh builder, a pass keeps the sealed and open runs covering the mints so far, each sealed run non-empty and fitting with each of its prefixes, no sealed run able to take the next mint, and it lowers the termination measure |
| BatchMinter.StepEffect | utils/mintHelper.ts:553-575 | a pass that overflows seals the open builder and restarts at the same index with a fresh builder; a pass that fits grows the builder and moves on, sealing it after the last mint |
| BatchMinter.FitsThroughoutPrefixes | utils/mintHelper.ts:537-566 | a run grown one mint at a time under the size check fits in a fresh builder with each of its non-empty prefixes |
| BatchMinter.RunsFitPrefixes | utils/mintHelper.ts:537-566 | for every sealed run, a fresh builder fits with each of the run's non-empty prefixes |
| BatchMinter.NeverFinishes | utils/mintHelper.ts:553-564 | if dropping instructions keeps a builder fitting, and mint `j` does not fit a fresh builder alone, then no number of passes from an index at or before `j` gets past `j` |
| BatchMinter.StartNeverFinishes | utils/mintHelper.ts:537-564 | under the same conditions, the loop started from index 0 has not reached the end after any number of passes |
| BatchMinter.RetriesForever | utils/mintHelper.ts:553-564 | when a mint does not fit a fresh builder on its own, the loop never moves past it, and every pass seals one more transaction without mints |
| BatchMinter.BuildTxs | utils/mintHelper.ts:515-579 | no transactions exactly when there are no mints; the transactions' runs, in order, are the mints, in order, each once with its own arguments; every transaction is the estimated limit, the price, then its run; every run is non-empty, and a fresh builder fits with every non-empty prefix of it, which is each builder the size check accepted while the run grew; no run could have taken the first mint of the next |
| BatchMinter.BuildTx | utils/mintHelper.ts:477-513 | the one-mint transaction is the price, then the limit, then exactly the mint of the given asset for the candy machine, its collection and guard, with its arguments and group scope (none for `"default"`), with the lookup tables and blockhash set |
| BatchMinter.OrderDiffers | utils/mintHelper.ts:504-509 | the one-mint transaction puts the price before the limit while a batch transaction of the same mint puts the limit before the price, with the same mint instruction |

## Left out

- The RPC and SDK calls are parameters, not computations. These are the transaction size check, the simulation, the signer collection of a builder, the merkle root and proof of an allowlist, and the on-chain lookup of an allowlist proof. Their byte-level and cryptographic behaviour is outside the model.
- The allowlists imported from the allowlist module are a parameter, a map from group label to the listed keys.
- The micro-lamport price of `buildTx` is read from the environment in the source, with a default of 1001. Here it is a parameter.
- `console.error` diagnostics are not modelled. Each error branch is modelled by its effect, which is a missing field or an empty builder.
- The async/await sequencing is not modelled, since every call is awaited in turn. Simulations are plain function applications.
- The route instruction's fixed `path: "proof"` argument is not a field of the `Route` instruction. It never varies.
- MintArgBuilder.BuildMintArgs, RouteBuilder.BuildRoute: no guard set at all (the `undefined` guard set of `chooseGuardToUse`'s last fallback) is not modelled. The source would fail on reading a field of `undefined`, at mintHelper.ts:91 and at mintHelper.ts:417. Both argument types exclude it.
- MintArgBuilder.BuildMintArgs: the amount is an integer. A fractional `amount` (one more turn of the loop) and fractional or non-numeric counters are not modelled.
- Object aliasing between entries of the owned-token list is not modelled: each entry is its own record, updated in place in the array.
- Guard kinds that are not part of the mint-argument record (the time, amount and program guards) give no field in the source. They are not part of `GuardSet`.
- BatchMinter.BuildTxs requires every single mint to fit in a fresh builder. For size checks where dropping instructions keeps a fit (as a byte limit does), the source never terminates without it; `StartNeverFinishes` and `RetriesForever` show this. For an arbitrary size check, the loop may still finish.
- The sizes of the builders and `fitsInOneTransaction`'s accounting are abstract. So the packers' "fits" statements are about the oracle, not about a byte limit.

## Findings

| source | as written | input that shows it | evidently intended | confidence | as-written member | corrected member |
|---|---|---|---|---|---|---|
| utils/mintHelper.ts:553-564 | when a mint overflows the builder, the builder is sealed, a fresh one is started and the index is rewound to retry the same mint, with no check that the mint fits a fresh builder | any batch where one mint does not fit in a fresh builder on its own, under a size check where dropping instructions keeps a fit (for example, one that rejects every builder of three instructions or more). The loop reaches that mint on a fresh builder, then each pass seals a transaction holding no mints and retries the same mint forever | the loop ends, packing every mint exactly once, in order, into transactions that fit | not executed | BatchMinter.StartNeverFinishes | BatchMinter.BuildTxs |
