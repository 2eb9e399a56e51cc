/** `buildTxs` and `buildTx`: turning the mints of a batch into signed-ready transactions, each
    led by a compute-unit limit estimated by simulation; and the one-mint transaction. */
module BatchMinter {
  import opened Wrappers
  import opened CandyTypes
  import opened Transactions
  import opened ComputeUnits
  import opened TransactionPacker

  /** The compute-unit limit a fresh batch builder carries until it is sealed. */
  const PlaceholderUnits: int := 1_400_000
  /** The compute-unit price of every batch transaction, in micro-lamports. */
  const BatchPrice: int := 5

  /** What the model does not compute itself: umi's size check, the RPC simulation and the
      signer collection of a builder. */
  datatype Oracles = Oracles(fits: seq<Instr> -> bool,
                             simulate: Transaction -> SimulationResult,
                             signersOf: seq<Instr> -> seq<PublicKey>)

  /** The builder every batch transaction starts from: the placeholder limit, then the price. */
  function FreshBuilder(): (r: seq<Instr>)
    ensures |r| == 2 && r[0].SetComputeUnitLimit? && r[1].SetComputeUnitPrice?
  {
    [SetComputeUnitLimit(PlaceholderUnits), SetComputeUnitPrice(BatchPrice)]
  }

  /** The mint arguments of mint `i`: entry `i` of the array when there is one and it has an
      entry `i`, and none otherwise. */
  function MintArgsAt(mintArgsArray: Option<seq<MintArgs>>, i: nat): (r: Option<MintArgs>)
    ensures r.Some? <==> mintArgsArray.Some? && i < |mintArgsArray.value|
    ensures r.Some? ==> r.value == mintArgsArray.value[i]
  {
    if mintArgsArray.Some? && i < |mintArgsArray.value| then Some(mintArgsArray.value[i]) else None
  }

  /** Mint `i` of the batch: it creates asset `nftMints[i]` with the mint arguments of index `i`. */
  function MintFor(cm: CandyMachine, cg: CandyGuard, nftMints: seq<PublicKey>, groupLabel: string,
                   mintArgsArray: Option<seq<MintArgs>>, i: nat): (r: Instr)
    requires i < |nftMints|
    ensures r.MintV1? && r.asset == nftMints[i] && r.mintArgs == MintArgsAt(mintArgsArray, i)
    ensures r.candyMachine == cm.publicKey && r.collection == cm.collectionMint
    ensures r.candyGuard == cg.publicKey && r.group == GroupOf(groupLabel)
  {
    MintV1(cm.publicKey, cm.collectionMint, nftMints[i], GroupOf(groupLabel), cg.publicKey, MintArgsAt(mintArgsArray, i))
  }

  /** The mint instructions of the batch, in order. */
  function AllMints(cm: CandyMachine, cg: CandyGuard, nftMints: seq<PublicKey>, groupLabel: string,
                    mintArgsArray: Option<seq<MintArgs>>): (r: seq<Instr>)
    ensures |r| == |nftMints|
    ensures forall i :: 0 <= i < |r| ==> r[i] == MintFor(cm, cg, nftMints, groupLabel, mintArgsArray, i)
  {
    seq(|nftMints|, i requires 0 <= i < |nftMints| => MintFor(cm, cg, nftMints, groupLabel, mintArgsArray, i))
  }

  /** Sealing a builder: it is simulated with the lookup tables set, its first instruction (the
      placeholder limit) is split off, and the estimated limit is put in front instead. */
  function SealItems(items: seq<Instr>, luts: seq<LookupTable>, blockhash: string, o: Oracles): (t: BuiltTx)
    ensures |t.transaction.instructions| == if |items| == 0 then 1 else |items|
    ensures |items| > 0 ==> t.transaction.instructions[1..] == items[1..]
    ensures t.transaction.instructions[0].SetComputeUnitLimit?
    ensures t.transaction.instructions[0].units > SafetyMargin
    ensures t.transaction.lookupTables == luts && t.transaction.blockhash == blockhash
    ensures t.signers == o.signersOf(t.transaction.instructions)
  {
    var units := RequiredComputeUnits(o.simulate(Transaction(items, luts, blockhash)));
    var withoutLimit := if |items| == 0 then [] else items[1..];
    var withLimit := [SetComputeUnitLimit(units)] + withoutLimit;
    BuiltTx(Transaction(withLimit, luts, blockhash), o.signersOf(withLimit))
  }

  /** The transaction made of a run of mints: the estimated limit, the price, then the mints;
      the estimate is that of the run simulated under the placeholder limit. */
  function Seal(run: seq<Instr>, luts: seq<LookupTable>, blockhash: string, o: Oracles): (t: BuiltTx)
    ensures |t.transaction.instructions| == |run| + 2
    ensures t.transaction.instructions[1..] == [SetComputeUnitPrice(BatchPrice)] + run
    ensures t.transaction.instructions[0]
            == SetComputeUnitLimit(RequiredComputeUnits(o.simulate(Transaction(FreshBuilder() + run, luts, blockhash))))
    ensures t.transaction.lookupTables == luts && t.transaction.blockhash == blockhash
  {
    var t := SealItems(FreshBuilder() + run, luts, blockhash, o);
    assert (FreshBuilder() + run)[1..] == [SetComputeUnitPrice(BatchPrice)] + run;
    t
  }

  function SealAll(runs: seq<seq<Instr>>, luts: seq<LookupTable>, blockhash: string, o: Oracles): (r: seq<BuiltTx>)
    ensures |r| == |runs|
    ensures forall k :: 0 <= k < |r| ==> r[k] == Seal(runs[k], luts, blockhash, o)
  {
    seq(|runs|, k requires 0 <= k < |runs| => Seal(runs[k], luts, blockhash, o))
  }

  // ---------------------------------------------------------------------------
  // One pass of the loop, as a function of the loop's state
  // ---------------------------------------------------------------------------

  /** The loop's state: the index `i` of the mint to add next, the `run` of mints in the open
      builder (which is `FreshBuilder() + run`), and the runs sealed into transactions so far. */
  datatype LoopState = LoopState(i: int, run: seq<Instr>, sealed: seq<seq<Instr>>)

  /** One pass of the loop body at index `s.i`. When the mint overflows the builder, the builder
      is sealed without it, a fresh builder is started and the index is rewound, so that the
      same mint is tried again; after the last mint the builder is sealed with it. */
  function LoopStep(mints: seq<Instr>, fits: seq<Instr> -> bool, s: LoopState): (r: LoopState)
    requires 0 <= s.i < |mints|
    ensures r.i == s.i || r.i == s.i + 1
  {
    var grown := s.run + [mints[s.i]];
    // overflow: the index is rewound by one and then advanced, so the same mint is tried again
    if !fits(FreshBuilder() + grown) then LoopState(s.i, [], s.sealed + [s.run])
    else if s.i == |mints| - 1 then LoopState(s.i + 1, grown, s.sealed + [grown])
    else LoopState(s.i + 1, grown, s.sealed)
  }

  /** Every single mint fits in a fresh builder. */
  predicate EachFitsFresh(mints: seq<Instr>, fits: seq<Instr> -> bool)
  {
    forall j :: 0 <= j < |mints| ==> fits(FreshBuilder() + [mints[j]])
  }

  /** The loop has sealed its last builder. */
  predicate Done(mints: seq<Instr>, s: LoopState)
  {
    s.i == |mints| && |mints| > 0
  }

  /** Every builder the loop checked while growing the run fitted: a fresh builder with the
      whole run, and so on back through each shorter non-empty prefix. */
  ghost predicate FitsThroughout(fits: seq<Instr> -> bool, run: seq<Instr>)
    decreases |run|
  {
    |run| == 0 || (fits(FreshBuilder() + run) && FitsThroughout(fits, run[..|run| - 1]))
  }

  /** A run that fitted throughout fitted with each of its non-empty prefixes. */
  lemma {:induction false} FitsThroughoutPrefixes(fits: seq<Instr> -> bool, run: seq<Instr>)
    requires FitsThroughout(fits, run)
    ensures forall m :: 1 <= m <= |run| ==> fits(FreshBuilder() + run[..m])
    decreases |run|
  {
    if |run| > 0 {
      var shorter := run[..|run| - 1];
      FitsThroughoutPrefixes(fits, shorter);
      forall m | 1 <= m <= |run|
        ensures fits(FreshBuilder() + run[..m])
      {
        if m < |run| {
          assert run[..m] == shorter[..m];
        } else {
          assert run[..m] == run;
        }
      }
    }
  }

  /** Every run is non-empty and fitted throughout its growth. */
  ghost predicate RunsFit(fits: seq<Instr> -> bool, runs: seq<seq<Instr>>)
  {
    forall k :: 0 <= k < |runs| ==> |runs[k]| > 0 && FitsThroughout(fits, runs[k])
  }

  /** Every builder checked while growing any of the runs fitted. */
  lemma {:induction false} RunsFitPrefixes(fits: seq<Instr> -> bool, runs: seq<seq<Instr>>)
    requires RunsFit(fits, runs)
    ensures forall k, m :: 0 <= k < |runs| && 1 <= m <= |runs[k]| ==> fits(FreshBuilder() + runs[k][..m])
  {
    forall k | 0 <= k < |runs|
      ensures forall m :: 1 <= m <= |runs[k]| ==> fits(FreshBuilder() + runs[k][..m])
    {
      FitsThroughoutPrefixes(fits, runs[k]);
    }
  }

  /** A run that fitted throughout still does after a mint whose addition fitted too. */
  lemma {:induction false} GrowFits(fits: seq<Instr> -> bool, run: seq<Instr>, x: Instr)
    requires FitsThroughout(fits, run) && fits(FreshBuilder() + (run + [x]))
    ensures FitsThroughout(fits, run + [x])
  {
    assert (run + [x])[..|run|] == run;
  }

  /** No run could have taken the first mint of the run after it. */
  ghost predicate Greedy(fits: seq<Instr> -> bool, runs: seq<seq<Instr>>)
    requires RunsFit(fits, runs)
  {
    forall k, j :: 0 <= k && j == k + 1 && j < |runs| ==> !fits(FreshBuilder() + runs[k] + [runs[j][0]])
  }

  /** What holds of the loop's state between passes: the sealed runs and the open run cover
      the mints before `i` (all of them once the loop is done); every sealed run is non-empty
      and fits; no sealed run could have taken the mint after it; the open run fits. */
  ghost predicate LoopInv(mints: seq<Instr>, fits: seq<Instr> -> bool, s: LoopState)
  {
    && 0 <= s.i <= |mints|
    && (Done(mints, s) ==> Concat(s.sealed) == mints)
    && (!Done(mints, s) ==> Concat(s.sealed) + s.run == mints[..s.i])
    && FitsThroughout(fits, s.run)
    && RunsFit(fits, s.sealed)
    && Greedy(fits, s.sealed)
    && (|s.sealed| > 0 && !Done(mints, s) ==>
          && s.i < |mints| && |Concat(s.sealed)| < |mints|
          && !fits(FreshBuilder() + s.sealed[|s.sealed| - 1] + [mints[|Concat(s.sealed)|]]))
  }

  /** Sealing a non-empty run that fitted throughout keeps every run fitting. */
  lemma {:induction false} SealFitting(fits: seq<Instr> -> bool, runs: seq<seq<Instr>>, run: seq<Instr>)
    requires RunsFit(fits, runs)
    requires |run| > 0 && FitsThroughout(fits, run)
    ensures RunsFit(fits, runs + [run])
  {
    forall k | 0 <= k < |runs + [run]|
      ensures |(runs + [run])[k]| > 0 && FitsThroughout(fits, (runs + [run])[k])
    {
      if k < |runs| {
        assert (runs + [run])[k] == runs[k];
      }
    }
  }

  /** Sealing a run whose first mint the last sealed run could not take keeps the runs greedy. */
  lemma {:induction false} SealGreedy(fits: seq<Instr> -> bool, runs: seq<seq<Instr>>, run: seq<Instr>)
    requires RunsFit(fits, runs) && Greedy(fits, runs)
    requires |run| > 0 && FitsThroughout(fits, run)
    requires |runs| > 0 ==> !fits(FreshBuilder() + runs[|runs| - 1] + [run[0]])
    ensures RunsFit(fits, runs + [run]) && Greedy(fits, runs + [run])
  {
    SealFitting(fits, runs, run);
    var r := runs + [run];
    forall k, j | 0 <= k && j == k + 1 && j < |r|
      ensures !fits(FreshBuilder() + r[k] + [r[j][0]])
    {
      assert r[k] == runs[k];
      if j < |runs| {
        assert r[j] == runs[j];
      }
    }
  }

  /** The measure the loop decreases on when every mint fits a fresh builder: a rewind keeps
      the index but empties the builder. */
  function Measure(mints: seq<Instr>, s: LoopState): int
  {
    2 * (|mints| - s.i) + (if |s.run| > 0 then 1 else 0)
  }

  lemma {:induction false} InitialInv(mints: seq<Instr>, fits: seq<Instr> -> bool)
    ensures LoopInv(mints, fits, LoopState(0, [], []))
  {
    assert mints[..0] == [];
  }

  /** Non-empty runs concatenate to at least one element per run. */
  lemma {:induction false} ConcatCoversRuns<T>(xss: seq<seq<T>>)
    ensures (forall k :: 0 <= k < |xss| ==> |xss[k]| > 0) ==> |Concat(xss)| >= |xss|
    decreases |xss|
  {
    if |xss| > 0 {
      ConcatCoversRuns(xss[..|xss| - 1]);
    }
  }

  /** Sealing the open run `run`, which cannot take mint `i`, and reopening an empty run keeps the invariant. */
  lemma {:induction false} SealedOpen(mints: seq<Instr>, fits: seq<Instr> -> bool, i: nat,
                                      sealed: seq<seq<Instr>>, run: seq<Instr>)
    requires i < |mints| && Concat(sealed) + run == mints[..i]
    requires |run| > 0 && FitsThroughout(fits, run) && !fits(FreshBuilder() + run + [mints[i]])
    requires RunsFit(fits, sealed) && Greedy(fits, sealed)
    requires |sealed| > 0 ==> |Concat(sealed)| < |mints| && !fits(FreshBuilder() + sealed[|sealed| - 1] + [mints[|Concat(sealed)|]])
    ensures LoopInv(mints, fits, LoopState(i, [], sealed + [run]))
  {
    assert run[0] == mints[..i][|Concat(sealed)|];
    SealGreedy(fits, sealed, run);
    ConcatSnoc(sealed, run);
    assert Concat(sealed + [run]) + [] == mints[..i];
    assert (sealed + [run])[|sealed|] == run;
  }

  /** Sealing the open run grown by the last mint ends the loop with the invariant. */
  lemma {:induction false} SealedLast(mints: seq<Instr>, fits: seq<Instr> -> bool,
                                      sealed: seq<seq<Instr>>, grown: seq<Instr>)
    requires Concat(sealed) + grown == mints && |mints| > 0
    requires |grown| > 0 && FitsThroughout(fits, grown)
    requires RunsFit(fits, sealed) && Greedy(fits, sealed)
    requires |sealed| > 0 ==> |Concat(sealed)| < |mints| && !fits(FreshBuilder() + sealed[|sealed| - 1] + [mints[|Concat(sealed)|]])
    ensures LoopInv(mints, fits, LoopState(|mints|, grown, sealed + [grown]))
  {
    assert grown[0] == mints[|Concat(sealed)|];
    SealGreedy(fits, sealed, grown);
    ConcatSnoc(sealed, grown);
  }

  /** A pass that overflows seals a non-empty run that fits and keeps the invariant. */
  lemma {:induction false} StepOverflowKeepsInv(mints: seq<Instr>, fits: seq<Instr> -> bool, s: LoopState)
    requires LoopInv(mints, fits, s) && 0 <= s.i < |mints| && EachFitsFresh(mints, fits)
    requires !fits(FreshBuilder() + s.run + [mints[s.i]])
    ensures |s.run| > 0
    ensures LoopInv(mints, fits, LoopStep(mints, fits, s))
  {
    assert FreshBuilder() + [] + [mints[s.i]] == FreshBuilder() + [mints[s.i]];
    assert FreshBuilder() + (s.run + [mints[s.i]]) == FreshBuilder() + s.run + [mints[s.i]];
    assert !Done(mints, s);
    SealedOpen(mints, fits, s.i, s.sealed, s.run);
  }

  /** A pass whose mint fits grows the open run, sealing it after the last mint, and keeps the invariant. */
  lemma {:induction false} StepFitsKeepsInv(mints: seq<Instr>, fits: seq<Instr> -> bool, s: LoopState)
    requires LoopInv(mints, fits, s) && 0 <= s.i < |mints|
    requires fits(FreshBuilder() + s.run + [mints[s.i]])
    ensures LoopInv(mints, fits, LoopStep(mints, fits, s))
  {
    var grown := s.run + [mints[s.i]];
    assert FreshBuilder() + grown == FreshBuilder() + s.run + [mints[s.i]];
    GrowFits(fits, s.run, mints[s.i]);
    assert !Done(mints, s);
    assert mints[..s.i + 1] == mints[..s.i] + [mints[s.i]];
    assert Concat(s.sealed) + grown == mints[..s.i + 1];
    if s.i == |mints| - 1 {
      assert mints[..s.i + 1] == mints;
      SealedLast(mints, fits, s.sealed, grown);
    }
  }

  /** With every mint fitting a fresh builder, a pass lowers the measure: a rewind only
      happens with a non-empty open run, which it empties. */
  lemma {:induction false} StepLowersMeasure(mints: seq<Instr>, fits: seq<Instr> -> bool, s: LoopState)
    requires 0 <= s.i < |mints| && EachFitsFresh(mints, fits)
    ensures 0 <= Measure(mints, LoopStep(mints, fits, s)) < Measure(mints, s)
  {
    if s.run == [] {
      assert FreshBuilder() + (s.run + [mints[s.i]]) == FreshBuilder() + [mints[s.i]];
    }
  }

  /** With every mint fitting a fresh builder, a pass keeps the invariant and lowers the measure. */
  lemma {:induction false} StepKeepsInv(mints: seq<Instr>, fits: seq<Instr> -> bool, s: LoopState)
    requires LoopInv(mints, fits, s) && 0 <= s.i < |mints| && EachFitsFresh(mints, fits)
    ensures LoopInv(mints, fits, LoopStep(mints, fits, s))
    ensures 0 <= Measure(mints, LoopStep(mints, fits, s)) < Measure(mints, s)
  {
    StepLowersMeasure(mints, fits, s);
    if fits(FreshBuilder() + s.run + [mints[s.i]]) {
      StepFitsKeepsInv(mints, fits, s);
    } else {
      StepOverflowKeepsInv(mints, fits, s);
    }
  }

  /** Passes applied `k` times, stopping once the index leaves the mints. */
  function Steps(mints: seq<Instr>, fits: seq<Instr> -> bool, s: LoopState, k: nat): LoopState
    decreases k
  {
    if k == 0 || !(0 <= s.i < |mints|) then s else Steps(mints, fits, LoopStep(mints, fits, s), k - 1)
  }

  /** Without the precondition the loop need not end: once the builder is fresh and the mint at
      the index does not fit a fresh builder on its own, every pass seals an empty transaction
      and rewinds to the same mint, so after any number of passes the index has not moved and
      one mint-less run has been sealed per pass. */
  lemma {:induction false} RetriesForever(mints: seq<Instr>, fits: seq<Instr> -> bool, s: LoopState, k: nat)
    requires 0 <= s.i < |mints| && s.run == []
    requires !fits(FreshBuilder() + [mints[s.i]])
    ensures Steps(mints, fits, s, k).i == s.i && Steps(mints, fits, s, k).run == []
    ensures |Steps(mints, fits, s, k).sealed| == |s.sealed| + k
    ensures Steps(mints, fits, s, k).sealed[..|s.sealed|] == s.sealed
    ensures forall j :: |s.sealed| <= j < |s.sealed| + k ==> Steps(mints, fits, s, k).sealed[j] == []
    decreases k
  {
    if k > 0 {
      var next := LoopStep(mints, fits, s);
      assert FreshBuilder() + (s.run + [mints[s.i]]) == FreshBuilder() + [mints[s.i]];
      assert next == LoopState(s.i, [], s.sealed + [[]]);
      RetriesForever(mints, fits, next, k - 1);
      var last := Steps(mints, fits, next, k - 1);
      assert last == Steps(mints, fits, s, k);
      assert last.sealed[..|s.sealed|] == (last.sealed[..|next.sealed|])[..|s.sealed|];
      forall j | |s.sealed| <= j < |s.sealed| + k
        ensures last.sealed[j] == []
      {
        if j == |s.sealed| {
          assert last.sealed[j] == (last.sealed[..|next.sealed|])[j];
        }
      }
    }
  }

  /** The size check never rejects a builder for holding less: dropping instructions from a
      builder that fits leaves one that fits. A byte-size limit is of this kind. */
  ghost predicate DroppingKeepsFit(fits: seq<Instr> -> bool)
  {
    forall a, b, c :: fits(a + b + c) ==> fits(a + c)
  }

  /** With such a size check, a mint that does not fit a fresh builder on its own is never
      passed: from any state at or before it, however many passes run, the index stays at or
      before it, so the loop never leaves the mints. */
  lemma {:induction false} NeverFinishes(mints: seq<Instr>, fits: seq<Instr> -> bool, s: LoopState, k: nat, j: nat)
    requires DroppingKeepsFit(fits)
    requires j < |mints| && !fits(FreshBuilder() + [mints[j]])
    requires 0 <= s.i <= j
    ensures Steps(mints, fits, s, k).i <= j
    decreases k
  {
    if k > 0 {
      if s.i == j {
        var mint := mints[j];
        assert FreshBuilder() + (s.run + [mint]) == FreshBuilder() + s.run + [mint];
        assert !fits(FreshBuilder() + s.run + [mint]);
      }
      NeverFinishes(mints, fits, LoopStep(mints, fits, s), k - 1, j);
    }
  }

  /** From the loop's initial state, a mint that does not fit a fresh builder on its own keeps
      the loop running for ever: every number of passes leaves the index inside the mints. */
  lemma {:induction false} StartNeverFinishes(mints: seq<Instr>, fits: seq<Instr> -> bool, j: nat, k: nat)
    requires DroppingKeepsFit(fits)
    requires j < |mints| && !fits(FreshBuilder() + [mints[j]])
    ensures Steps(mints, fits, LoopState(0, [], []), k).i < |mints|
  {
    NeverFinishes(mints, fits, LoopState(0, [], []), k, j);
  }

  lemma {:induction false} SealAllSnoc(runs: seq<seq<Instr>>, run: seq<Instr>, luts: seq<LookupTable>, blockhash: string, o: Oracles)
    ensures SealAll(runs + [run], luts, blockhash, o) == SealAll(runs, luts, blockhash, o) + [SealItems(FreshBuilder() + run, luts, blockhash, o)]
  {
  }

  /** When the loop has left the mints, the sealed runs are the batch's transactions. */
  lemma {:induction false} FinalInv(mints: seq<Instr>, fits: seq<Instr> -> bool, s: LoopState)
    requires LoopInv(mints, fits, s) && s.i >= |mints|
    ensures |s.sealed| == 0 <==> |mints| == 0
    ensures Concat(s.sealed) == mints
    ensures RunsFit(fits, s.sealed) && Greedy(fits, s.sealed)
  {
    ConcatCoversRuns(s.sealed);
    if |mints| == 0 {
      assert mints[..s.i] == [];
    }
  }

  /** What one pass does to the builder and to the sealed transactions, case by case. */
  lemma {:induction false} StepEffect(mints: seq<Instr>, s: LoopState, luts: seq<LookupTable>, blockhash: string, o: Oracles)
    requires 0 <= s.i < |mints|
    ensures var next, grown := LoopStep(mints, o.fits, s), FreshBuilder() + s.run + [mints[s.i]];
            && (!o.fits(grown) ==>
                  && next.i == s.i && next.run == []
                  && SealAll(next.sealed, luts, blockhash, o)
                     == SealAll(s.sealed, luts, blockhash, o) + [SealItems(FreshBuilder() + s.run, luts, blockhash, o)])
            && (o.fits(grown) ==> next.i == s.i + 1 && FreshBuilder() + next.run == grown)
            && (o.fits(grown) && s.i == |mints| - 1 ==>
                  SealAll(next.sealed, luts, blockhash, o)
                  == SealAll(s.sealed, luts, blockhash, o) + [SealItems(grown, luts, blockhash, o)])
            && (o.fits(grown) && s.i < |mints| - 1 ==> next.sealed == s.sealed)
  {
    var grown := s.run + [mints[s.i]];
    assert FreshBuilder() + grown == FreshBuilder() + s.run + [mints[s.i]];
    SealAllSnoc(s.sealed, s.run, luts, blockhash, o);
    SealAllSnoc(s.sealed, grown, luts, blockhash, o);
  }

  /** The variables of `buildTxs` as the loop state `s` describes them: the index, the open
      builder and the transactions sealed so far. */
  ghost predicate Tracks(s: LoopState, i: int, builder: seq<Instr>, txs: seq<BuiltTx>,
                         luts: seq<LookupTable>, blockhash: string, o: Oracles)
  {
    s.i == i && builder == FreshBuilder() + s.run && txs == SealAll(s.sealed, luts, blockhash, o)
  }

  /** A pass of `buildTxs` whose mint overflows the open builder: the builder is sealed into
      the transactions, a fresh builder is started and the index stays. */
  lemma {:induction false} PassOverflows(mints: seq<Instr>, s: LoopState, builder: seq<Instr>, txs: seq<BuiltTx>,
                                         luts: seq<LookupTable>, blockhash: string, o: Oracles)
    requires LoopInv(mints, o.fits, s) && 0 <= s.i < |mints| && EachFitsFresh(mints, o.fits)
    requires Tracks(s, s.i, builder, txs, luts, blockhash, o)
    requires !o.fits(builder + [mints[s.i]])
    ensures LoopInv(mints, o.fits, LoopStep(mints, o.fits, s))
    ensures 0 <= Measure(mints, LoopStep(mints, o.fits, s)) < Measure(mints, s)
    ensures Tracks(LoopStep(mints, o.fits, s), s.i, FreshBuilder(), txs + [SealItems(builder, luts, blockhash, o)],
                   luts, blockhash, o)
  {
    StepKeepsInv(mints, o.fits, s);
    StepEffect(mints, s, luts, blockhash, o);
    assert FreshBuilder() + [] == FreshBuilder();
  }

  /** A pass of `buildTxs` whose mint fits: the builder grows, the index moves on, and after
      the last mint the builder is sealed into the transactions. */
  lemma {:induction false} PassFits(mints: seq<Instr>, s: LoopState, builder: seq<Instr>, txs: seq<BuiltTx>,
                                    luts: seq<LookupTable>, blockhash: string, o: Oracles)
    requires LoopInv(mints, o.fits, s) && 0 <= s.i < |mints| && EachFitsFresh(mints, o.fits)
    requires Tracks(s, s.i, builder, txs, luts, blockhash, o)
    requires o.fits(builder + [mints[s.i]])
    ensures LoopInv(mints, o.fits, LoopStep(mints, o.fits, s))
    ensures 0 <= Measure(mints, LoopStep(mints, o.fits, s)) < Measure(mints, s)
    ensures s.i == |mints| - 1 ==>
              Tracks(LoopStep(mints, o.fits, s), s.i + 1, builder + [mints[s.i]],
                     txs + [SealItems(builder + [mints[s.i]], luts, blockhash, o)], luts, blockhash, o)
    ensures s.i < |mints| - 1 ==>
              Tracks(LoopStep(mints, o.fits, s), s.i + 1, builder + [mints[s.i]], txs, luts, blockhash, o)
  {
    StepKeepsInv(mints, o.fits, s);
    StepEffect(mints, s, luts, blockhash, o);
  }

  // ---------------------------------------------------------------------------
  // The batch builder
  // ---------------------------------------------------------------------------

  /** `buildTxs`: greedily packs the mints, in order, into builders that fit; each builder is
      sealed with its simulated compute-unit limit. The ghost `runs` are the mints of each
      transaction. Terminates because every mint fits a fresh builder on its own. */
  method BuildTxs(cm: CandyMachine, cg: CandyGuard, nftMints: seq<PublicKey>, groupLabel: string,
                  mintArgsArray: Option<seq<MintArgs>>, luts: seq<LookupTable>, blockhash: string, o: Oracles)
    returns (txs: seq<BuiltTx>, ghost runs: seq<seq<Instr>>)
    requires EachFitsFresh(AllMints(cm, cg, nftMints, groupLabel, mintArgsArray), o.fits)
    ensures |txs| == 0 <==> |nftMints| == 0
    ensures |runs| == |txs| && Concat(runs) == AllMints(cm, cg, nftMints, groupLabel, mintArgsArray)
    ensures forall k :: 0 <= k < |txs| ==> txs[k] == Seal(runs[k], luts, blockhash, o)
    ensures RunsFit(o.fits, runs) && Greedy(o.fits, runs)
    ensures forall k, m :: 0 <= k < |runs| && 1 <= m <= |runs[k]| ==> o.fits(FreshBuilder() + runs[k][..m])
  {
    ghost var mints := AllMints(cm, cg, nftMints, groupLabel, mintArgsArray);
    ghost var s := LoopState(0, [], []);
    InitialInv(mints, o.fits);
    var builder := FreshBuilder();
    txs := [];
    var i: int := 0;
    while i < |nftMints|
      invariant Tracks(s, i, builder, txs, luts, blockhash, o)
      invariant LoopInv(mints, o.fits, s)
      decreases Measure(mints, s)
    {
      var before := builder;
      var mint := MintFor(cm, cg, nftMints, groupLabel, mintArgsArray, i);
      builder := builder + [mint];
      if !o.fits(builder) {
        PassOverflows(mints, s, before, txs, luts, blockhash, o);
        txs := txs + [SealItems(before, luts, blockhash, o)];
        builder := FreshBuilder();
        i := i - 1;
        assert LoopStep(mints, o.fits, s).i == i + 1;
      } else {
        PassFits(mints, s, before, txs, luts, blockhash, o);
        if i == |nftMints| - 1 {
          txs := txs + [SealItems(builder, luts, blockhash, o)];
        }
        assert LoopStep(mints, o.fits, s).i == i + 1;
      }
      i := i + 1;
      s := LoopStep(mints, o.fits, s);
    }
    FinalInv(mints, o.fits, s);
    runs := s.sealed;
    RunsFitPrefixes(o.fits, runs);
  }

  // ---------------------------------------------------------------------------
  // The single-mint transaction
  // ---------------------------------------------------------------------------

  /** `buildTx`: one mint, with the price prepended in front of the limit, so the price comes
      first — the opposite order to the batch transactions. */
  function BuildTx(cm: CandyMachine, cg: CandyGuard, nftMint: PublicKey, groupLabel: string,
                   mintArgs: Option<MintArgs>, luts: seq<LookupTable>, blockhash: string,
                   units: int, microLamports: int): (t: Transaction)
    ensures |t.instructions| == 3
    ensures t.instructions[0] == SetComputeUnitPrice(microLamports)
    ensures t.instructions[1] == SetComputeUnitLimit(units)
    ensures t.instructions[2] == MintV1(cm.publicKey, cm.collectionMint, nftMint, GroupOf(groupLabel), cg.publicKey, mintArgs)
    ensures t.instructions[2].group.None? <==> groupLabel == "default"
    ensures t.lookupTables == luts && t.blockhash == blockhash
  {
    var mint := [MintV1(cm.publicKey, cm.collectionMint, nftMint, GroupOf(groupLabel), cg.publicKey, mintArgs)];
    var withLimit := [SetComputeUnitLimit(units)] + mint;
    var withPrice := [SetComputeUnitPrice(microLamports)] + withLimit;
    Transaction(withPrice, luts, blockhash)
  }

  /** A one-mint batch transaction and the `buildTx` transaction of the same mint hold the same
      three instructions kinds with the limit and the price in opposite order. */
  lemma {:induction false} OrderDiffers(cm: CandyMachine, cg: CandyGuard, nftMint: PublicKey, groupLabel: string,
                     mintArgs: Option<MintArgs>, luts: seq<LookupTable>, blockhash: string,
                     units: int, microLamports: int, o: Oracles)
    ensures var single := BuildTx(cm, cg, nftMint, groupLabel, mintArgs, luts, blockhash, units, microLamports);
            var batch := Seal([single.instructions[2]], luts, blockhash, o).transaction;
            && single.instructions[0].SetComputeUnitPrice? && single.instructions[1].SetComputeUnitLimit?
            && batch.instructions[0].SetComputeUnitLimit? && batch.instructions[1].SetComputeUnitPrice?
            && batch.instructions[2] == single.instructions[2]
  {
    var single := BuildTx(cm, cg, nftMint, groupLabel, mintArgs, luts, blockhash, units, microLamports);
    var batch := Seal([single.instructions[2]], luts, blockhash, o).transaction;
    assert batch.instructions[1..][1] == batch.instructions[2];
  }
}
