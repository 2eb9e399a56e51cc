/** `combineTransactions`: packing a list of transaction builders greedily into as few
    transactions as the size check allows, keeping their instructions in order. */
module TransactionPacker {
  import opened Wrappers
  import opened Transactions

  /** A transaction builder: its instructions and, once set, its address lookup tables. */
  datatype Builder = Builder(items: seq<Instr>, tables: Option<seq<LookupTable>>)

  /** The concatenation of a list of lists, in order. */
  function Concat<T>(xss: seq<seq<T>>): seq<T>
  {
    if |xss| == 0 then [] else Concat(xss[..|xss| - 1]) + xss[|xss| - 1]
  }

  /** All instructions of a list of builders, in order. */
  function Contents(bs: seq<Builder>): seq<Instr>
  {
    if |bs| == 0 then [] else Contents(bs[..|bs| - 1]) + bs[|bs| - 1].items
  }

  lemma ConcatSnoc<T>(xss: seq<seq<T>>, xs: seq<T>)
    ensures Concat(xss + [xs]) == Concat(xss) + xs
  {
    assert (xss + [xs])[..|xss|] == xss;
  }

  /** Concatenation distributes over appending lists of lists. */
  lemma {:induction false} ConcatAppend<T>(a: seq<seq<T>>, b: seq<seq<T>>)
    ensures Concat(a + b) == Concat(a) + Concat(b)
    decreases |b|
  {
    if |b| == 0 {
      assert a + b == a;
    } else {
      var b' := b[..|b| - 1];
      assert a + b == (a + b') + [b[|b| - 1]];
      assert b == b' + [b[|b| - 1]];
      ConcatSnoc(a + b', b[|b| - 1]);
      ConcatSnoc(b', b[|b| - 1]);
      ConcatAppend(a, b');
    }
  }

  /** Builders holding, one by one, the concatenations of consecutive runs of groups hold, all
      together, the concatenation of all the groups. */
  lemma {:induction false} ContentsOfRuns(bs: seq<Builder>, runs: seq<seq<seq<Instr>>>)
    requires |bs| == |runs|
    requires forall k :: 0 <= k < |bs| ==> bs[k].items == Concat(runs[k])
    ensures Contents(bs) == Concat(Concat(runs))
    decreases |bs|
  {
    if |bs| > 0 {
      var n := |bs| - 1;
      ContentsOfRuns(bs[..n], runs[..n]);
      ConcatAppend(Concat(runs[..n]), runs[n]);
    }
  }

  /** Every builder the packer checked while growing a run fitted: the builder holding the
      run's first two groups or more, and the first builder with its first group alone (a later
      builder starts from a group that overflowed the one before, unchecked). */
  ghost predicate PrefixesFit(run: seq<seq<Instr>>, first: bool, fits: seq<Instr> -> bool)
    decreases |run|
  {
    |run| == 0 || ((first || |run| >= 2 ==> fits(Concat(run))) && PrefixesFit(run[..|run| - 1], first, fits))
  }

  /** Spelled out: each checked prefix of a run that fitted throughout fits. */
  lemma {:induction false} PrefixesFitEach(run: seq<seq<Instr>>, first: bool, fits: seq<Instr> -> bool)
    requires PrefixesFit(run, first, fits)
    ensures forall m :: (2 <= m <= |run| || (first && m == 1 && |run| >= 1)) ==> fits(Concat(run[..m]))
    decreases |run|
  {
    if |run| > 0 {
      var shorter := run[..|run| - 1];
      PrefixesFitEach(shorter, first, fits);
      forall m | 2 <= m <= |run| || (first && m == 1 && |run| >= 1)
        ensures fits(Concat(run[..m]))
      {
        if m < |run| {
          assert run[..m] == shorter[..m];
        } else {
          assert run[..m] == run;
        }
      }
    }
  }

  /** Closed builder `c` holds the run of groups `run` with the lookup tables set; only the
      first run may be empty; and every builder checked while growing the run fitted. */
  ghost predicate RunHeld(c: Builder, run: seq<seq<Instr>>, first: bool, tables: seq<LookupTable>, fits: seq<Instr> -> bool)
  {
    && c.items == Concat(run) && c.tables == Some(tables)
    && (!first ==> |run| > 0)
    && PrefixesFit(run, first, fits)
  }

  /** The builders closed so far, with the runs of groups they hold, and the run `open` of the
      builder still open: every closed builder holds its run, and no closed builder could have
      taken the first group of the run after it. */
  ghost predicate ClosedRuns(closed: seq<Builder>, runs: seq<seq<seq<Instr>>>, open: seq<seq<Instr>>,
                             tables: seq<LookupTable>, fits: seq<Instr> -> bool)
  {
    && |runs| == |closed|
    && (forall k :: 0 <= k < |closed| ==> RunHeld(closed[k], runs[k], k == 0, tables, fits))
    && (forall k, j :: 0 <= k && j == k + 1 && j < |closed| ==> !fits(closed[k].items + runs[j][0]))
    && (|closed| > 0 ==> |open| > 0 && !fits(closed[|closed| - 1].items + open[0]))
  }

  /** Closing the open builder `b`, when group `tx` does not fit in it, keeps the runs well formed. */
  lemma {:induction false} Close(closed: seq<Builder>, runs: seq<seq<seq<Instr>>>, open: seq<seq<Instr>>,
                                 tables: seq<LookupTable>, fits: seq<Instr> -> bool, b: Builder, tx: seq<Instr>)
    requires ClosedRuns(closed, runs, open, tables, fits)
    requires b.items == Concat(open)
    requires |closed| > 0 ==> |open| > 0
    requires PrefixesFit(open, |closed| == 0, fits)
    requires !fits(b.items + tx)
    ensures ClosedRuns(closed + [Builder(b.items, Some(tables))], runs + [open], [tx], tables, fits)
  {
    var closed', runs' := closed + [Builder(b.items, Some(tables))], runs + [open];
    forall k | 0 <= k < |closed'|
      ensures RunHeld(closed'[k], runs'[k], k == 0, tables, fits)
    {
      if k < |closed| {
        assert closed'[k] == closed[k] && runs'[k] == runs[k];
      }
    }
    forall k, j | 0 <= k && j == k + 1 && j < |closed'|
      ensures !fits(closed'[k].items + runs'[j][0])
    {
      if j < |closed| {
        assert closed'[k] == closed[k] && runs'[j] == runs[j];
      }
    }
  }

  /** Adding a group to the open run keeps the runs well formed. */
  lemma {:induction false} Extend(closed: seq<Builder>, runs: seq<seq<seq<Instr>>>, open: seq<seq<Instr>>,
               tables: seq<LookupTable>, fits: seq<Instr> -> bool, tx: seq<Instr>)
    requires ClosedRuns(closed, runs, open, tables, fits)
    requires |closed| > 0 ==> |open| > 0
    ensures ClosedRuns(closed, runs, open + [tx], tables, fits)
  {
    if |closed| > 0 {
      assert (open + [tx])[0] == open[0];
    }
  }

  /** Closing the last builder `b` without lookup tables yields the packer's result `r`, with
      the open run as the last of the runs `all`. */
  lemma {:induction false} Finish(closed: seq<Builder>, runs: seq<seq<seq<Instr>>>, open: seq<seq<Instr>>,
                                  tables: seq<LookupTable>, fits: seq<Instr> -> bool, b: Builder, txs: seq<seq<Instr>>,
                                  r: seq<Builder>, all: seq<seq<seq<Instr>>>)
    requires ClosedRuns(closed, runs, open, tables, fits)
    requires Concat(runs) + open == txs
    requires b.items == Concat(open) && b.tables.None?
    requires |open| > 0
    requires PrefixesFit(open, |closed| == 0, fits)
    requires r == closed + [b] && all == runs + [open]
    ensures Contents(r) == Concat(txs)
    ensures forall k :: 0 <= k < |r| - 1 ==> r[k].tables == Some(tables)
    ensures |all| == |r| && Concat(all) == txs
    ensures forall k :: 0 <= k < |r| ==> r[k].items == Concat(all[k])
    ensures forall k :: 0 < k < |all| ==> |all[k]| > 0
    ensures forall k :: 0 <= k < |all| ==> PrefixesFit(all[k], k == 0, fits)
  {
    ConcatSnoc(runs, open);
    forall k | 0 <= k < |r|
      ensures r[k].items == Concat(all[k]) && PrefixesFit(all[k], k == 0, fits)
    {
      if k < |closed| {
        assert r[k] == closed[k] && all[k] == runs[k];
      }
    }
    ContentsOfRuns(r, all);
  }

  /** Builder `k` of the result `r` could not have taken the first group of builder `k + 1`. */
  lemma {:induction false} FinishGreedy(closed: seq<Builder>, runs: seq<seq<seq<Instr>>>, open: seq<seq<Instr>>,
                                        tables: seq<LookupTable>, fits: seq<Instr> -> bool, b: Builder,
                                        r: seq<Builder>, all: seq<seq<seq<Instr>>>)
    requires ClosedRuns(closed, runs, open, tables, fits)
    requires |open| > 0
    requires r == closed + [b] && all == runs + [open]
    ensures forall k, j :: 0 <= k && j == k + 1 && j < |r| ==> !fits(r[k].items + all[j][0])
  {
    forall k, j | 0 <= k && j == k + 1 && j < |r|
      ensures !fits(r[k].items + all[j][0])
    {
      assert r[k] == closed[k];
      if j < |closed| {
        assert all[j] == runs[j];
      }
    }
  }

  /** The packer's state after `i` groups: the closed builders and their runs, then the open
      builder holding the open run, together cover `txs[..i]`. */
  ghost predicate Packing(txs: seq<seq<Instr>>, i: nat, closed: seq<Builder>, runs: seq<seq<seq<Instr>>>,
                          open: seq<seq<Instr>>, b: Builder, tables: seq<LookupTable>, fits: seq<Instr> -> bool)
  {
    && i <= |txs|
    && ClosedRuns(closed, runs, open, tables, fits)
    && Concat(runs) + open == txs[..i]
    && b.items == Concat(open) && b.tables.None?
    && (i > 0 ==> |open| > 0)
    && PrefixesFit(open, |closed| == 0, fits)
  }

  /** The runs so far, then the open run, cover `txs[..i]`; adding group `i` to either covers `txs[..i + 1]`. */
  lemma {:induction false} Cover(txs: seq<seq<Instr>>, i: nat, runs: seq<seq<seq<Instr>>>, open: seq<seq<Instr>>)
    requires i < |txs| && Concat(runs) + open == txs[..i]
    ensures Concat(runs) + (open + [txs[i]]) == txs[..i + 1]
    ensures Concat(runs + [open]) + [txs[i]] == txs[..i + 1]
  {
    assert txs[..i + 1] == txs[..i] + [txs[i]];
    ConcatSnoc(runs, open);
  }

  /** A run of one group holds that group's instructions. */
  lemma {:induction false} ConcatSingle(tx: seq<Instr>)
    ensures Concat([tx]) == [] + tx
  {
    assert [tx][..0] == [];
  }

  /** Group `i` fits in the open builder and joins its run. */
  lemma {:induction false} StepFits(txs: seq<seq<Instr>>, i: nat, closed: seq<Builder>, runs: seq<seq<seq<Instr>>>,
                                    open: seq<seq<Instr>>, b: Builder, tables: seq<LookupTable>, fits: seq<Instr> -> bool)
    requires Packing(txs, i, closed, runs, open, b, tables, fits) && i < |txs|
    requires fits(b.items + txs[i])
    ensures Packing(txs, i + 1, closed, runs, open + [txs[i]], Builder(b.items + txs[i], None), tables, fits)
  {
    ConcatSnoc(open, txs[i]);
    assert (open + [txs[i]])[..|open|] == open;
    Cover(txs, i, runs, open);
    Extend(closed, runs, open, tables, fits, txs[i]);
  }

  /** Group `i` overflows the open builder, which is closed; group `i` starts a new run. */
  lemma {:induction false} StepOverflows(txs: seq<seq<Instr>>, i: nat, closed: seq<Builder>, runs: seq<seq<seq<Instr>>>,
                                         open: seq<seq<Instr>>, b: Builder, tables: seq<LookupTable>, fits: seq<Instr> -> bool)
    requires Packing(txs, i, closed, runs, open, b, tables, fits) && i < |txs|
    requires !fits(b.items + txs[i])
    ensures Packing(txs, i + 1, closed + [Builder(b.items, Some(tables))], runs + [open], [txs[i]],
                    Builder([] + txs[i], None), tables, fits)
  {
    Close(closed, runs, open, tables, fits, b, txs[i]);
    Cover(txs, i, runs, open);
    ConcatSingle(txs[i]);
    assert [txs[i]][..0] == [];
  }

  /** Once every group is packed, the closed builders and the open builder `b`, closed
      without lookup tables, are the packer's result `r`, and `all` are its runs. */
  lemma {:induction false} Result(txs: seq<seq<Instr>>, closed: seq<Builder>, runs: seq<seq<seq<Instr>>>,
                                  open: seq<seq<Instr>>, b: Builder, tables: seq<LookupTable>, fits: seq<Instr> -> bool,
                                  r: seq<Builder>, all: seq<seq<seq<Instr>>>)
    requires Packing(txs, |txs|, closed, runs, open, b, tables, fits) && |txs| > 0
    requires r == closed + [b] && all == runs + [open]
    ensures |r| == 0 <==> |txs| == 0
    ensures Contents(r) == Concat(txs)
    ensures forall k :: 0 <= k < |r| - 1 ==> r[k].tables == Some(tables)
    ensures |r| > 0 ==> r[|r| - 1].tables.None?
    ensures |all| == |r| && Concat(all) == txs
    ensures forall k :: 0 <= k < |r| ==> r[k].items == Concat(all[k])
    ensures forall k :: 0 < k < |all| ==> |all[k]| > 0
    ensures forall k :: 0 <= k < |r| && (|all[k]| >= 2 || (k == 0 && |all[k]| == 1)) ==> fits(r[k].items)
    ensures forall k, m :: 0 <= k < |all| && (2 <= m <= |all[k]| || (k == 0 && m == 1 && |all[k]| >= 1)) ==>
              fits(Concat(all[k][..m]))
    ensures forall k, j :: 0 <= k && j == k + 1 && j < |r| ==> !fits(r[k].items + all[j][0])
  {
    assert txs[..|txs|] == txs;
    Finish(closed, runs, open, tables, fits, b, txs, r, all);
    FinishGreedy(closed, runs, open, tables, fits, b, r, all);
    forall k | 0 <= k < |all|
      ensures forall m :: (2 <= m <= |all[k]| || (k == 0 && m == 1 && |all[k]| >= 1)) ==> fits(Concat(all[k][..m]))
    {
      PrefixesFitEach(all[k], k == 0, fits);
    }
  }

  /** The greedy packer. Each group in turn is added to the open builder; when the result no
      longer fits, the open builder is closed with the lookup tables set and a new builder is
      started with that group alone; the last builder is closed without lookup tables. The
      ghost `runs` split `txs` into the consecutive runs of groups the builders hold.
      A single group that does not fit on its own is never split, so only a builder holding two
      groups or more, or the first builder, is known to fit; and the first builder is empty
      when the first group does not fit on its own. Every builder checked on the way fitted:
      each run's prefixes of two groups or more, and the first run's first group alone. */
  method CombineTransactions(txs: seq<seq<Instr>>, tables: seq<LookupTable>, fits: seq<Instr> -> bool)
    returns (r: seq<Builder>, ghost runs: seq<seq<seq<Instr>>>)
    ensures |r| == 0 <==> |txs| == 0
    ensures Contents(r) == Concat(txs)
    ensures forall k :: 0 <= k < |r| - 1 ==> r[k].tables == Some(tables)
    ensures |r| > 0 ==> r[|r| - 1].tables.None?
    ensures |runs| == |r| && Concat(runs) == txs
    ensures forall k :: 0 <= k < |r| ==> r[k].items == Concat(runs[k])
    ensures forall k :: 0 < k < |runs| ==> |runs[k]| > 0
    ensures forall k :: 0 <= k < |r| && (|runs[k]| >= 2 || (k == 0 && |runs[k]| == 1)) ==> fits(r[k].items)
    ensures forall k, m :: 0 <= k < |runs| && (2 <= m <= |runs[k]| || (k == 0 && m == 1 && |runs[k]| >= 1)) ==>
              fits(Concat(runs[k][..m]))
    ensures forall k, j :: 0 <= k && j == k + 1 && j < |r| ==> !fits(r[k].items + runs[j][0])
  {
    r := [];
    ghost var closed: seq<Builder> := [];
    runs := [];
    ghost var open: seq<seq<Instr>> := [];
    var builder := Builder([], None);
    var i := 0;
    while i < |txs|
      invariant r == if i == |txs| && i > 0 then closed + [builder] else closed
      invariant Packing(txs, i, closed, runs, open, builder, tables, fits)
    {
      var tx := txs[i];
      var oldBuilder := builder;
      builder := Builder(builder.items + tx, builder.tables);
      if !fits(builder.items) {
        StepOverflows(txs, i, closed, runs, open, oldBuilder, tables, fits);
        oldBuilder := Builder(oldBuilder.items, Some(tables));
        r := r + [oldBuilder];
        closed := closed + [oldBuilder];
        runs := runs + [open];
        open := [tx];
        builder := Builder([], None);
        builder := Builder(builder.items + tx, builder.tables);
      } else {
        StepFits(txs, i, closed, runs, open, oldBuilder, tables, fits);
        open := open + [tx];
      }
      if i == |txs| - 1 {
        r := r + [builder];
      }
      i := i + 1;
    }
    if |txs| > 0 {
      ghost var all := runs + [open];
      Result(txs, closed, runs, open, builder, tables, fits, r, all);
      runs := all;
    }
  }
}
