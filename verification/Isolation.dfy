/** A pass works on its own pair only, so a tick does not depend on the order of the pairs. */
module Isolation {
  import opened Transactions
  import opened Ledger
  import opened Settlement
  import opened Deposits
  import opened Withdrawals
  import opened Passes
  import opened Lifecycle

  /** The two tables coincide on the rows of the pair. */
  ghost predicate AgreeOn(p: Pair, rows: seq<Tx>, rows': seq<Tx>) {
    && |rows| == |rows'|
    && forall i :: 0 <= i < |rows| && (InPair(rows[i], p) || InPair(rows'[i], p)) ==> rows[i] == rows'[i]
  }

  ghost predicate OthersUntouched(p: Pair, rows: seq<Tx>, rows': seq<Tx>) {
    |rows| == |rows'| && forall i :: 0 <= i < |rows| && !InPair(rows[i], p) ==> rows'[i] == rows[i]
  }

  predicate About(q: Query, p: Pair) {
    q.merchant == p.merchant && q.blockchain == p.blockchain
  }

  lemma {:induction false} FetchAgrees(p: Pair, rows: seq<Tx>, rows': seq<Tx>, q: Query, limit: nat)
    requires AgreeOn(p, rows, rows') && About(q, p)
    ensures Fetch(rows, q, limit) == Fetch(rows', q, limit)
  {
    if rows != [] && limit > 0 {
      FetchAgrees(p, rows[1..], rows'[1..], q, if Matches(rows[0], q) then limit - 1 else limit);
    }
  }

  /** What one phase of the pair does: it keeps identities and foreign rows, and it treats equal rows equally. */
  ghost predicate LocalTo(p: Pair, rows: seq<Tx>, rows': seq<Tx>, after: seq<Tx>, after': seq<Tx>) {
    && SameRows(rows, after) && SameRows(rows', after')
    && OthersUntouched(p, rows, after)
    && AgreeOn(p, after, after')
  }

  lemma PutsLocal(p: Pair, rows: seq<Tx>, rows': seq<Tx>, q: Query, f: Tx -> seq<Edit>)
    requires UniqueGuids(rows) && UniqueGuids(rows') && AgreeOn(p, rows, rows') && About(q, p)
    ensures LocalTo(p, rows, rows', Puts(rows, Fetch(rows, q, BATCH_LIMIT), f),
                    Puts(rows', Fetch(rows', q, BATCH_LIMIT), f))
  {
    var batch := Fetch(rows, q, BATCH_LIMIT);
    FetchAgrees(p, rows, rows', q, BATCH_LIMIT);
    forall i | 0 <= i < |rows|
      ensures SameIdentity(rows[i], Puts(rows, batch, f)[i])
      ensures SameIdentity(rows'[i], Puts(rows', batch, f)[i])
      ensures !InPair(rows[i], p) ==> Puts(rows, batch, f)[i] == rows[i]
      ensures rows[i] == rows'[i] ==> Puts(rows, batch, f)[i] == Puts(rows', batch, f)[i]
    {
      PhaseAt(rows, q, f, i);
      PutsIsPointwise(rows, batch, f, i);
      PutsIsPointwise(rows', batch, f, i);
    }
  }

  lemma SettleLocal(p: Pair, rows: seq<Tx>, rows': seq<Tx>, terms: Terms, answers: Answers)
    requires UniqueGuids(rows) && UniqueGuids(rows') && AgreeOn(p, rows, rows')
    ensures LocalTo(p, rows, rows', SettlePhase(rows, p, terms, answers), SettlePhase(rows', p, terms, answers))
  {
    FetchAgrees(p, rows, rows', Query(p.merchant, p.blockchain, Deposit, Processed), BATCH_LIMIT);
    forall i | 0 <= i < |rows|
      ensures SameIdentity(rows[i], SettlePhase(rows, p, terms, answers)[i])
      ensures SameIdentity(rows'[i], SettlePhase(rows', p, terms, answers)[i])
      ensures !InPair(rows[i], p) ==> SettlePhase(rows, p, terms, answers)[i] == rows[i]
      ensures rows[i] == rows'[i] ==>
                SettlePhase(rows, p, terms, answers)[i] == SettlePhase(rows', p, terms, answers)[i]
    {
      SettlePhaseAt(rows, p, terms, answers, i);
      SettlePhaseAt(rows', p, terms, answers, i);
    }
  }

  lemma LocalChain(p: Pair, rows: seq<Tx>, rows': seq<Tx>, mid: seq<Tx>, mid': seq<Tx>, after: seq<Tx>, after': seq<Tx>)
    requires UniqueGuids(rows) && UniqueGuids(rows')
    requires LocalTo(p, rows, rows', mid, mid') && LocalTo(p, mid, mid', after, after')
    ensures LocalTo(p, rows, rows', after, after') && UniqueGuids(after) && UniqueGuids(after')
  {
    forall i | 0 <= i < |rows| ensures SameIdentity(rows[i], after[i]) && SameIdentity(rows'[i], after'[i]) {
      assert SameIdentity(rows[i], mid[i]) && SameIdentity(mid[i], after[i]);
      assert SameIdentity(rows'[i], mid'[i]) && SameIdentity(mid'[i], after'[i]);
    }
    SameRowsKeepGuids(rows, after);
    SameRowsKeepGuids(rows', after');
  }

  lemma DepositPassIsLocal(rows: seq<Tx>, rows': seq<Tx>, p: Pair, terms: Terms, d: DepositAnswers)
    requires UniqueGuids(rows) && UniqueGuids(rows') && AgreeOn(p, rows, rows')
    ensures LocalTo(p, rows, rows', DepositPass(rows, p, terms, d), DepositPass(rows', p, terms, d))
    ensures UniqueGuids(DepositPass(rows, p, terms, d)) && UniqueGuids(DepositPass(rows', p, terms, d))
  {
    var a, a' := InitPhase(rows, p, d.init), InitPhase(rows', p, d.init);
    PutsLocal(p, rows, rows', Query(p.merchant, p.blockchain, Deposit, Init), InitEdits(d.init));
    SameRowsKeepGuids(rows, a);
    SameRowsKeepGuids(rows', a');
    var b, b' := SettlePhase(a, p, terms, d.settle), SettlePhase(a', p, terms, d.settle);
    SettleLocal(p, a, a', terms, d.settle);
    LocalChain(p, rows, rows', a, a', b, b');
    var c, c' := DonePhase(b, p, d.done), DonePhase(b', p, d.done);
    PutsLocal(p, b, b', Query(p.merchant, p.blockchain, Deposit, Settled), DoneEdits(d.done));
    LocalChain(p, rows, rows', b, b', c, c');
  }

  /** Isolation: a pass changes only rows of its pair, and what it does to them depends on nothing else. */
  lemma PassIsLocal(rows: seq<Tx>, rows': seq<Tx>, pass: Pass)
    requires UniqueGuids(rows) && UniqueGuids(rows') && AgreeOn(pass.pair, rows, rows')
    ensures LocalTo(pass.pair, rows, rows', Apply(rows, pass), Apply(rows', pass))
  {
    var p, d := pass.pair, pass.outcomes.deposit;
    DepositPassIsLocal(rows, rows', p, pass.terms, d);
    var c, c' := DepositPass(rows, p, pass.terms, d), DepositPass(rows', p, pass.terms, d);
    WithdrawPhasesAreLocal(rows, rows', c, c', pass);
  }

  lemma WithdrawPhasesAreLocal(rows: seq<Tx>, rows': seq<Tx>, c: seq<Tx>, c': seq<Tx>, pass: Pass)
    requires UniqueGuids(rows) && UniqueGuids(rows') && UniqueGuids(c) && UniqueGuids(c')
    requires LocalTo(pass.pair, rows, rows', c, c')
    ensures var p, o := pass.pair, pass.outcomes;
            LocalTo(p, rows, rows', PayPhase(CollectPhase(c, p, pass.sending, o.collect), p, o.pay),
                    PayPhase(CollectPhase(c', p, pass.sending, o.collect), p, o.pay))
  {
    var p, o := pass.pair, pass.outcomes;
    var d, d' := CollectPhase(c, p, pass.sending, o.collect), CollectPhase(c', p, pass.sending, o.collect);
    PutsLocal(p, c, c', WithdrawQuery(p, Processed), CollectEdits(pass.sending, o.collect));
    LocalChain(p, rows, rows', c, c', d, d');
    PutsLocal(p, d, d', WithdrawQuery(p, Settled), PayEdits(o.pay));
    LocalChain(p, rows, rows', d, d', PayPhase(d, p, o.pay), PayPhase(d', p, o.pay));
  }

  ghost predicate DistinctPairs(passes: seq<Pass>) {
    forall j, k :: 0 <= j < k < |passes| ==> passes[j].pair != passes[k].pair
  }

  /** Row `i` of `after` is what the one pass of its own pair makes of `rows`, alone. */
  ghost predicate RowIsPairwise(rows: seq<Tx>, passes: seq<Pass>, after: seq<Tx>, i: nat)
    requires UniqueGuids(rows) && i < |rows| == |after|
  {
    && (forall k :: 0 <= k < |passes| && InPair(rows[i], passes[k].pair) ==>
          |Apply(rows, passes[k])| == |rows| && after[i] == Apply(rows, passes[k])[i])
    && ((forall k :: 0 <= k < |passes| ==> !InPair(rows[i], passes[k].pair)) ==> after[i] == rows[i])
  }

  lemma BeforeAgreesWithStart(rows: seq<Tx>, passes: seq<Pass>, before: seq<Tx>, p: Pair)
    requires UniqueGuids(rows) && SameRows(rows, before)
    requires Pairwise(rows, passes, before)
    requires forall k :: 0 <= k < |passes| ==> passes[k].pair != p
    ensures AgreeOn(p, rows, before)
  {
    forall i | 0 <= i < |rows| && (InPair(rows[i], p) || InPair(before[i], p)) ensures rows[i] == before[i] {
      assert SameIdentity(rows[i], before[i]);
      assert RowIsPairwise(rows, passes, before, i);
    }
  }

  lemma LastPassIsPairwise(rows: seq<Tx>, passes: seq<Pass>, last: Pass, before: seq<Tx>, after: seq<Tx>, i: nat)
    requires UniqueGuids(rows) && i < |rows| == |before| == |after|
    requires forall k :: 0 <= k < |passes| ==> passes[k].pair != last.pair
    requires RowIsPairwise(rows, passes, before, i)
    requires InPair(rows[i], last.pair) ==> |Apply(rows, last)| == |rows| && after[i] == Apply(rows, last)[i]
    requires !InPair(rows[i], last.pair) ==> after[i] == before[i]
    ensures RowIsPairwise(rows, passes + [last], after, i)
  {
    var all := passes + [last];
    forall k | 0 <= k < |all| && InPair(rows[i], all[k].pair)
      ensures |Apply(rows, all[k])| == |rows| && after[i] == Apply(rows, all[k])[i]
    {
      if k < |passes| {
        assert all[k] == passes[k];
      }
    }
    if forall k :: 0 <= k < |all| ==> !InPair(rows[i], all[k].pair) {
      assert all[|passes|] == last;
      assert forall k :: 0 <= k < |passes| ==> all[k] == passes[k];
    }
  }

  /** Every row is what the one pass of its own pair, if any, makes of it. */
  ghost predicate Pairwise(rows: seq<Tx>, passes: seq<Pass>, after: seq<Tx>)
    requires UniqueGuids(rows)
  {
    |after| == |rows| && forall i :: 0 <= i < |rows| ==> RowIsPairwise(rows, passes, after, i)
  }

  lemma LastPassStep(rows: seq<Tx>, init: seq<Pass>, last: Pass, before: seq<Tx>)
    requires UniqueGuids(rows) && UniqueGuids(before) && SameRows(rows, before)
    requires Pairwise(rows, init, before)
    requires forall k :: 0 <= k < |init| ==> init[k].pair != last.pair
    ensures Pairwise(rows, init + [last], Apply(before, last))
  {
    BeforeAgreesWithStart(rows, init, before, last.pair);
    PassIsLocal(before, rows, last);
    var after := Apply(before, last);
    forall i | 0 <= i < |rows| ensures RowIsPairwise(rows, init + [last], after, i) {
      assert SameIdentity(rows[i], before[i]);
      assert SameIdentity(before[i], after[i]);
      LastPassIsPairwise(rows, init, last, before, after, i);
    }
  }

  lemma NeverBackIsSameRows(rows: seq<Tx>, rows': seq<Tx>)
    requires TableNeverBack(rows, rows')
    ensures SameRows(rows, rows')
  {
    forall i | 0 <= i < |rows| ensures SameIdentity(rows[i], rows'[i]) {
      assert NeverBack(rows[i], rows'[i]);
    }
  }

  lemma TickKeepsRows(rows: seq<Tx>, passes: seq<Pass>)
    requires UniqueGuids(rows)
    ensures SameRows(rows, ApplyAll(rows, passes)) && UniqueGuids(ApplyAll(rows, passes))
  {
    SchedulerNeverGoesBack(rows, passes);
    NeverBackIsSameRows(rows, ApplyAll(rows, passes));
    SameRowsKeepGuids(rows, ApplyAll(rows, passes));
  }

  lemma InitPairsDiffer(passes: seq<Pass>)
    requires DistinctPairs(passes) && passes != []
    ensures var init, last := passes[..|passes| - 1], passes[|passes| - 1];
            DistinctPairs(init) && forall k :: 0 <= k < |init| ==> init[k].pair != last.pair
  {
  }

  /** After a tick every row is what the one pass of its own pair makes of it. */
  lemma {:induction false} TickIsPairwise(rows: seq<Tx>, passes: seq<Pass>)
    requires UniqueGuids(rows) && DistinctPairs(passes)
    ensures Pairwise(rows, passes, ApplyAll(rows, passes))
  {
    if passes != [] {
      InitPairsDiffer(passes);
      TickIsPairwise(rows, passes[..|passes| - 1]);
      OnePassMore(rows, passes);
    }
  }

  lemma OnePassMore(rows: seq<Tx>, passes: seq<Pass>)
    requires UniqueGuids(rows) && DistinctPairs(passes) && passes != []
    requires var init := passes[..|passes| - 1]; Pairwise(rows, init, ApplyAll(rows, init))
    ensures Pairwise(rows, passes, ApplyAll(rows, passes))
  {
    var init, last := passes[..|passes| - 1], passes[|passes| - 1];
    assert passes == init + [last];
    TickKeepsRows(rows, init);
    LastPassStep(rows, init, last, ApplyAll(rows, init));
  }
}
