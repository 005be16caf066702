/** The lifecycle init < processed < settle < done, phase by phase and over whole runs of the scheduler. */
module Lifecycle {
  import opened Transactions
  import opened Settlement
  import opened Deposits
  import opened Withdrawals
  import opened Passes

  function Rank(s: Status): nat {
    match s
    case Init => 0
    case Processed => 1
    case Settled => 2
    case Done => 3
    case Rejected => 4
  }

  predicate Final(t: Tx) {
    t.status == Done || t.status == Rejected
  }

  /** Across one phase a row keeps its rank or rises by one, and a final row does not change at all. */
  predicate Advances(t: Tx, t': Tx) {
    && SameIdentity(t, t')
    && (Final(t) ==> t' == t)
    && (Rank(t'.status) == Rank(t.status) || Rank(t'.status) == Rank(t.status) + 1)
    && (t'.status == Rejected ==> t.status == Rejected)
  }

  ghost predicate PhaseAdvances(rows: seq<Tx>, rows': seq<Tx>) {
    |rows| == |rows'| && forall i :: 0 <= i < |rows| ==> Advances(rows[i], rows'[i])
  }

  lemma InitAdvances(rows: seq<Tx>, pass: Pass)
    requires UniqueGuids(rows)
    ensures PhaseAdvances(rows, InitPhase(rows, pass.pair, pass.outcomes.deposit.init))
  {
    forall i | 0 <= i < |rows| ensures Advances(rows[i], InitPhase(rows, pass.pair, pass.outcomes.deposit.init)[i]) {
      InitPhaseAt(rows, pass.pair, pass.outcomes.deposit.init, i);
    }
  }

  lemma SettleAdvances(rows: seq<Tx>, pass: Pass)
    requires UniqueGuids(rows)
    ensures PhaseAdvances(rows, SettlePhase(rows, pass.pair, pass.terms, pass.outcomes.deposit.settle))
  {
    var p, terms, settle := pass.pair, pass.terms, pass.outcomes.deposit.settle;
    forall i | 0 <= i < |rows| ensures Advances(rows[i], SettlePhase(rows, p, terms, settle)[i]) {
      SettlePhaseAt(rows, p, terms, settle, i);
    }
  }

  lemma DoneAdvances(rows: seq<Tx>, pass: Pass)
    requires UniqueGuids(rows)
    ensures PhaseAdvances(rows, DonePhase(rows, pass.pair, pass.outcomes.deposit.done))
  {
    forall i | 0 <= i < |rows| ensures Advances(rows[i], DonePhase(rows, pass.pair, pass.outcomes.deposit.done)[i]) {
      DonePhaseAt(rows, pass.pair, pass.outcomes.deposit.done, i);
    }
  }

  lemma CollectAdvances(rows: seq<Tx>, pass: Pass)
    requires UniqueGuids(rows)
    ensures PhaseAdvances(rows, CollectPhase(rows, pass.pair, pass.sending, pass.outcomes.collect))
  {
    var p, sending, collect := pass.pair, pass.sending, pass.outcomes.collect;
    forall i | 0 <= i < |rows| ensures Advances(rows[i], CollectPhase(rows, p, sending, collect)[i]) {
      CollectPhaseAt(rows, p, sending, collect, i);
    }
  }

  lemma PayAdvances(rows: seq<Tx>, pass: Pass)
    requires UniqueGuids(rows)
    ensures PhaseAdvances(rows, PayPhase(rows, pass.pair, pass.outcomes.pay))
  {
    forall i | 0 <= i < |rows| ensures Advances(rows[i], PayPhase(rows, pass.pair, pass.outcomes.pay)[i]) {
      PayPhaseAt(rows, pass.pair, pass.outcomes.pay, i);
    }
  }

  lemma EveryPhaseAdvances(rows: seq<Tx>, pass: Pass)
    requires UniqueGuids(rows)
    ensures PhaseAdvances(rows, InitPhase(rows, pass.pair, pass.outcomes.deposit.init))
    ensures PhaseAdvances(rows, SettlePhase(rows, pass.pair, pass.terms, pass.outcomes.deposit.settle))
    ensures PhaseAdvances(rows, DonePhase(rows, pass.pair, pass.outcomes.deposit.done))
    ensures PhaseAdvances(rows, CollectPhase(rows, pass.pair, pass.sending, pass.outcomes.collect))
    ensures PhaseAdvances(rows, PayPhase(rows, pass.pair, pass.outcomes.pay))
  {
    InitAdvances(rows, pass);
    SettleAdvances(rows, pass);
    DoneAdvances(rows, pass);
    CollectAdvances(rows, pass);
    PayAdvances(rows, pass);
  }

  /** Never backwards: what repeated phases preserve. */
  predicate NeverBack(t: Tx, t': Tx) {
    && SameIdentity(t, t') && Rank(t.status) <= Rank(t'.status)
    && (Final(t) ==> t' == t)
    && (t'.status == Rejected ==> t.status == Rejected)
  }

  ghost predicate TableNeverBack(rows: seq<Tx>, rows': seq<Tx>) {
    |rows| == |rows'| && forall i :: 0 <= i < |rows| ==> NeverBack(rows[i], rows'[i])
  }

  lemma AdvanceIsNotBack(rows: seq<Tx>, middle: seq<Tx>, rows': seq<Tx>)
    requires UniqueGuids(rows) && TableNeverBack(rows, middle) && PhaseAdvances(middle, rows')
    ensures TableNeverBack(rows, rows') && UniqueGuids(rows')
  {
    forall i | 0 <= i < |rows| ensures NeverBack(rows[i], rows'[i]) {
      assert NeverBack(rows[i], middle[i]) && Advances(middle[i], rows'[i]);
    }
    SameRowsKeepGuids(rows, rows');
  }

  lemma PassNeverGoesBack(rows: seq<Tx>, pass: Pass)
    requires UniqueGuids(rows)
    ensures TableNeverBack(rows, Apply(rows, pass)) && UniqueGuids(Apply(rows, pass))
  {
    var d := pass.outcomes.deposit;
    var rows1 := InitPhase(rows, pass.pair, d.init);
    InitAdvances(rows, pass);
    AdvanceIsNotBack(rows, rows, rows1);
    var rows2 := SettlePhase(rows1, pass.pair, pass.terms, d.settle);
    SettleAdvances(rows1, pass);
    AdvanceIsNotBack(rows, rows1, rows2);
    var rows3 := DonePhase(rows2, pass.pair, d.done);
    DoneAdvances(rows2, pass);
    AdvanceIsNotBack(rows, rows2, rows3);
    var rows4 := CollectPhase(rows3, pass.pair, pass.sending, pass.outcomes.collect);
    CollectAdvances(rows3, pass);
    AdvanceIsNotBack(rows, rows3, rows4);
    PayAdvances(rows4, pass);
    AdvanceIsNotBack(rows, rows4, PayPhase(rows4, pass.pair, pass.outcomes.pay));
  }

  function ApplyAll(rows: seq<Tx>, passes: seq<Pass>): seq<Tx> {
    if passes == [] then rows else Apply(ApplyAll(rows, passes[..|passes| - 1]), passes[|passes| - 1])
  }

  /** No sequence of passes moves a row backwards or touches a `done` or `rejected` one. */
  lemma {:induction false} SchedulerNeverGoesBack(rows: seq<Tx>, passes: seq<Pass>)
    requires UniqueGuids(rows)
    ensures UniqueGuids(ApplyAll(rows, passes))
    ensures TableNeverBack(rows, ApplyAll(rows, passes))
  {
    if passes != [] {
      var init := passes[..|passes| - 1];
      SchedulerNeverGoesBack(rows, init);
      PassNeverGoesBack(ApplyAll(rows, init), passes[|passes| - 1]);
      forall i | 0 <= i < |rows| ensures NeverBack(rows[i], ApplyAll(rows, passes)[i]) {
        assert NeverBack(rows[i], ApplyAll(rows, init)[i]);
        assert NeverBack(ApplyAll(rows, init)[i], ApplyAll(rows, passes)[i]);
      }
    }
  }

  /** Inside the settlement loop a row does drop: settled with the whole batch, then re-put as processed. */
  lemma SettledRowDropsInsideTheLoop(s: Settlement, rows: seq<Tx>, i: nat, last: nat)
    requires UniqueGuids(s.batch) && last < i < |s.batch| && rows == s.batch
    requires s.Settles(last)
    ensures s.After(rows, i, last)[i].status == Settled
    ensures s.After(rows, i + 1, last)[i].status == Processed
  {
    s.PositionIsUnique(i);
  }
}
