/** Every run accounts for what the service pays out: each outside address holds exactly the executed payouts that name
    it. The runs are those of `WithdrawLedger`. */
module PayoutLedger {
  import opened Transactions
  import opened Ledger
  import opened Sums
  import opened Settlement
  import opened Deposits
  import opened Withdrawals
  import opened Passes
  import opened Scheduler
  import opened TickTheorems
  import opened Effects
  import opened WithdrawLedger
  import R = ReceivingLedger

  /** An address that is none of the processor's own. */
  predicate IsOutside(p: Processor, address: string) {
    address != p.sendingAddress && address != p.receivingAddress
  }

  /** The units of one coin that the payouts of a withdrawal have brought to an address. */
  function PaidToW(p: Processor, w: Books, address: string, c: Coin): Tx -> real {
    (t: Tx) =>
      if t.action == Withdraw && t.extWallet == address && CoinPaid(p.native, t) == c
      then Stake(Trunc(t.amount), w.paid[t.guid], 0) as real else 0.0
  }

  ghost predicate PaidTo(p: Processor, start: Balances, w: Books, address: string, c: Coin) {
    Bal(w.balance, Outside(address), c) as real
    == Bal(start, Outside(address), c) as real + Sum(w.rows, PaidToW(p, w, address, c))
  }

  ghost predicate PaidOut(p: Processor, start: Balances, w: Books) {
    forall address, c :: IsOutside(p, address) ==> PaidTo(p, start, w, address, c)
  }

  ghost predicate OutsideKept(b: Balances, b': Balances) {
    forall address, c :: Bal(b', Outside(address), c) == Bal(b, Outside(address), c)
  }

  /** Nobody but the service moves funds of the outside addresses. */
  ghost predicate Undisturbed(w: Books, step: Step) {
    step.Elsewhere? ==> OutsideKept(w.balance, step.balance)
  }

  /** Rows rewritten in place, and counters as they were: nothing has been paid. */
  lemma RewritingKeepsPaid(p: Processor, start: Balances, w: Books, w': Books)
    requires PaidOut(p, start, w) && SameRows(w.rows, w'.rows) && w'.paid == w.paid
    requires OutsideKept(w.balance, w'.balance)
    ensures PaidOut(p, start, w')
  {
    forall address, c | IsOutside(p, address) ensures PaidTo(p, start, w', address, c) {
      assert PaidTo(p, start, w, address, c);
      forall k | 0 <= k < |w.rows|
        ensures PaidToW(p, w, address, c)(w.rows[k]) == PaidToW(p, w', address, c)(w'.rows[k])
      {
        assert SameIdentity(w.rows[k], w'.rows[k]);
      }
      SumSame(w.rows, w'.rows, PaidToW(p, w, address, c), PaidToW(p, w', address, c));
    }
  }

  lemma PayRowAt(s: Setting, w: Books, t: Tx, a: PayAnswer, i: nat)
    requires UniqueGuids(w.rows) && i < |w.rows| && w.rows[i] == t
    ensures var rows' := s.PayRow(w, t, a).rows;
            && |rows'| == |w.rows| && SameIdentity(t, rows'[i])
            && forall k :: 0 <= k < |w.rows| && k != i ==> rows'[k] == w.rows[k] && w.rows[k].guid != t.guid
  {
    var j := IndexOf(w.rows, t);
    assert j == i;
  }

  lemma RowCounts(p: Processor, w: Books, w': Books, t: Tx, t': Tx, pays: bool, address: string, c: Coin)
    requires SameIdentity(t, t') && t.action == Withdraw
    requires w'.paid[t.guid] == w.paid[t.guid] + if pays then 1 else 0
    ensures PaidToW(p, w', address, c)(t') == PaidToW(p, w, address, c)(t)
         + (if pays && address == t.extWallet && CoinPaid(p.native, t) == c then Trunc(t.amount) else 0) as real
  {
    StakeSteps(Trunc(t.amount), w.paid[t.guid], 0);
  }

  lemma PayCounts(s: Setting, w: Books, t: Tx, a: PayAnswer, i: nat, address: string, c: Coin)
    requires UniqueGuids(w.rows) && i < |w.rows| && w.rows[i] == t && t.action == Withdraw
    ensures var p, w' := s.processor, s.PayRow(w, t, a);
            var units := if a.broadcast.Some? && address == t.extWallet && CoinPaid(p.native, t) == c
                         then Trunc(t.amount) else 0;
            Sum(w'.rows, PaidToW(p, w', address, c)) == Sum(w.rows, PaidToW(p, w, address, c)) + units as real
  {
    var p, w' := s.processor, s.PayRow(w, t, a);
    PayRowAt(s, w, t, a, i);
    RowCounts(p, w, w', t, w'.rows[i], a.broadcast.Some?, address, c);
    SumDiffersAt(w.rows, w'.rows, PaidToW(p, w, address, c), PaidToW(p, w', address, c), i);
  }

  /** A payout pays what it counts, where it says. */
  lemma PayKeeps(s: Setting, start: Balances, w: Books, t: Tx, a: PayAnswer)
    requires UniqueGuids(w.rows) && t in w.rows && t.action == Withdraw && PaidOut(s.processor, start, w)
    ensures PaidOut(s.processor, start, s.PayRow(w, t, a))
  {
    var i := IndexOf(w.rows, t);
    PayoutMoves(s, w, t, a);
    forall address, coin | IsOutside(s.processor, address)
      ensures PaidTo(s.processor, start, s.PayRow(w, t, a), address, coin)
    {
      assert PaidTo(s.processor, start, w, address, coin);
      PayCounts(s, w, t, a, i, address, coin);
    }
  }

  lemma CollectKeeps(s: Setting, start: Balances, w: Books, t: Tx, a: CollectAnswer)
    requires PaidOut(s.processor, start, w)
    ensures PaidOut(s.processor, start, s.CollectRow(w, t, a))
  {
    CollectRowKeepsRows(s, w, t, a);
    RewritingKeepsPaid(s.processor, start, w, s.CollectRow(w, t, a));
  }

  lemma CollectRowKeepsRows(s: Setting, w: Books, t: Tx, a: CollectAnswer)
    ensures var w' := s.CollectRow(w, t, a);
            SameRows(w.rows, w'.rows) && w'.paid == w.paid && OutsideKept(w.balance, w'.balance)
  {
    var r := CollectResult(a.reput, if s.Collects(w.balance, t, a) then a.broadcast else None, a.stored);
    var edits := CollectWrites(t, s.terms.StoredCommission(t.amount), r);
    CollectRowIsPuts(w, s, t, a);
    forall i | 0 <= i < |w.rows| ensures SameIdentity(w.rows[i], PutAll(w.rows, KeyOf(t), edits)[i]) {
      PutAllAt(w.rows, KeyOf(t), edits, i);
      EditedAllKeepsIdentity(w.rows[i], edits);
    }
  }

  /** New rows are withdrawals that have not been paid, or deposits. */
  lemma {:induction false} NewRowsAreUnpaid(rows: seq<Tx>, n: nat, p: Processor, w: Books, address: string, c: Coin)
    requires n <= |rows|
    requires forall i :: n <= i < |rows| ==> rows[i].action == Deposit || Untouched(w, rows[i].guid)
    ensures Sum(rows, PaidToW(p, w, address, c)) == Sum(rows[..n], PaidToW(p, w, address, c))
  {
    if n == |rows| {
      assert rows[..n] == rows;
    } else {
      var m := |rows| - 1;
      NewRowsAreUnpaid(rows[..m], n, p, w, address, c);
      assert rows[..m][..n] == rows[..n];
      StakeSteps(Trunc(rows[m].amount), 0, 0);
    }
  }

  lemma ExtendingKeepsPaid(p: Processor, start: Balances, w: Books, rows: seq<Tx>, balance: Balances)
    requires PaidOut(p, start, w) && OutsideKept(w.balance, balance) && |w.rows| <= |rows|
    requires forall i :: 0 <= i < |w.rows| ==>
               rows[i].action == w.rows[i].action && (w.rows[i].action == Withdraw ==> rows[i] == w.rows[i])
    requires forall i :: |w.rows| <= i < |rows| ==> rows[i].action == Deposit || Untouched(w, rows[i].guid)
    ensures PaidOut(p, start, w.(rows := rows, balance := balance))
  {
    var w', n := w.(rows := rows, balance := balance), |w.rows|;
    forall address, c | IsOutside(p, address) ensures PaidTo(p, start, w', address, c) {
      assert PaidTo(p, start, w, address, c);
      NewRowsAreUnpaid(rows, n, p, w, address, c);
      SumSame(w.rows, rows[..n], PaidToW(p, w, address, c), PaidToW(p, w, address, c));
      SumSame(rows, rows, PaidToW(p, w, address, c), PaidToW(p, w', address, c));
    }
  }

  lemma StepKeepsPaid(p: Processor, start: Balances, w: Books, step: Step, w': Books)
    requires RowsCounted(w) && PaidOut(p, start, w) && Next(p, w, step, w') && Undisturbed(w, step)
    ensures PaidOut(p, start, w')
  {
    match step
    case InitWithdraw(t) =>
      assert !HasGuid(w.rows, t.guid);
      ExtendingKeepsPaid(p, start, w, w'.rows, w.balance);
    case UpdateWithdraw(key, hash, commission) => RewritingKeepsPaid(p, start, w, w');
    case DeleteWithdraw(key) => RewritingKeepsPaid(p, start, w, w');
    case Collect(s, t, a) => CollectKeeps(s, start, w, t, a);
    case Pay(s, t, a) => PayKeeps(s, start, w, t, a);
    case Elsewhere(rows, balance) => ExtendingKeepsPaid(p, start, w, rows, balance);
  }

  lemma NothingIsPaidAtFirst(p: Processor, w: Books)
    requires Initial(w)
    ensures PaidOut(p, w.balance, w)
  {
    forall address, c ensures PaidTo(p, w.balance, w, address, c) {
      assert Sum(w.rows, PaidToW(p, w, address, c)) == 0.0;
    }
  }

  lemma StateIsCounted(p: Processor, states: seq<Books>, steps: seq<Step>, n: nat)
    requires Run(p, states, steps) && Initial(states[0]) && n < |steps|
    ensures RowsCounted(states[n]) && Next(p, states[n], steps[n], states[n + 1])
  {
    EveryRunIsAccounted(p, states, steps, n);
  }

  /** In every run in which nobody else moves funds of the outside addresses, each of them holds, of every coin, its
      start plus the truncated amounts of the withdrawals that name it, as often as they were paid. */
  lemma {:induction false} EveryPayoutArrives(p: Processor, states: seq<Books>, steps: seq<Step>, n: nat)
    requires Run(p, states, steps) && Initial(states[0]) && n < |states|
    requires forall i :: 0 <= i < |steps| ==> Undisturbed(states[i], steps[i])
    ensures PaidOut(p, states[0].balance, states[n])
  {
    if n == 0 {
      NothingIsPaidAtFirst(p, states[0]);
    } else {
      EveryPayoutArrives(p, states, steps, n - 1);
      StateIsCounted(p, states, steps, n - 1);
      assert Undisturbed(states[n - 1], steps[n - 1]);
      StepKeepsPaid(p, states[0].balance, states[n - 1], steps[n - 1], states[n]);
    }
  }

  /** While no row write of a payout fails, an outside address has received just the `done` withdrawals that name it. */
  lemma DoneWithdrawalsArrive(p: Processor, states: seq<Books>, steps: seq<Step>, n: nat, address: string, c: Coin)
    requires Run(p, states, steps) && Initial(states[0]) && n < |states| && IsOutside(p, address)
    requires forall i :: 0 <= i < |steps| ==> Undisturbed(states[i], steps[i])
    requires states[n].undone == multiset{}
    ensures Bal(states[n].balance, Outside(address), c) as real
         == Bal(states[0].balance, Outside(address), c) as real + Sum(states[n].rows, DoneW(p, address, c))
  {
    var w := states[n];
    EveryPayoutArrives(p, states, steps, n);
    EveryRunIsAccounted(p, states, steps, n);
    assert PaidTo(p, states[0].balance, w, address, c);
    forall i | 0 <= i < |w.rows| ensures PaidToW(p, w, address, c)(w.rows[i]) == DoneW(p, address, c)(w.rows[i]) {
      if w.rows[i].action == Withdraw {
        assert Counted(w, w.rows[i]);
        StakeSteps(Trunc(w.rows[i].amount), 0, 0);
      }
    }
    SumSame(w.rows, w.rows, PaidToW(p, w, address, c), DoneW(p, address, c));
  }

  function DoneW(p: Processor, address: string, c: Coin): Tx -> real {
    (t: Tx) =>
      if t.action == Withdraw && t.status == Done && t.extWallet == address && CoinPaid(p.native, t) == c
      then Trunc(t.amount) as real else 0.0
  }

  // Whole ticks.

  lemma {:induction false} GatherKeepsOutside(b: Balances, batch: seq<Tx>, answers: nat -> InitAnswer)
    ensures OutsideKept(b, Gather(b, batch, answers))
  {
    if batch != [] {
      GatherKeepsOutside(b, batch[..|batch| - 1], answers);
    }
  }

  lemma {:induction false} DisburseKeepsOutside(s: Settlement, b: Balances, to: Account, n: nat)
    requires n <= |s.batch| && !to.Outside?
    ensures OutsideKept(b, s.Disburse(b, to, n))
  {
    if n > 0 {
      DisburseKeepsOutside(s, b, to, n - 1);
    }
  }

  lemma DepositsAreUndisturbed(c: Config, job: Job, w: Books, a: DepositAnswers)
    requires UniqueGuids(w.rows)
    ensures OutsideKept(w.balance, DepositBooks(c, job, w, a).balance)
    ensures SameRows(w.rows, DepositBooks(c, job, w, a).rows)
  {
    var p := job.PairOf(c);
    var s := R.SettlementOf(c, job, w.rows, a);
    DepositsKeepGuids(w.rows, p, job.TermsOf(c), a);
    GatherKeepsOutside(w.balance, DepositBatch(w.rows, p, Init), a.init);
    DisburseKeepsOutside(s, Gather(w.balance, DepositBatch(w.rows, p, Init), a.init), job.PayeeOf(c), s.VisitedFrom(0));
  }

  lemma {:induction false} CollectAllKeeps(s: Setting, start: Balances, w: Books, batch: seq<Tx>,
                                           answers: nat -> CollectAnswer)
    requires PaidOut(s.processor, start, w)
    ensures PaidOut(s.processor, start, s.CollectAll(w, batch, answers))
  {
    if batch != [] {
      var rest, t := batch[..|batch| - 1], batch[|batch| - 1];
      CollectAllKeeps(s, start, w, rest, answers);
      CollectKeeps(s, start, s.CollectAll(w, rest, answers), t, answers(t.guid));
    }
  }

  lemma PayIterationKeepsPaid(s: Setting, start: Balances, w: Books, batch: seq<Tx>, answers: nat -> PayAnswer, j: nat)
    requires UniqueGuids(batch) && j < |batch|
    requires var before := s.PayAll(w, batch[..j], answers);
             && UniqueGuids(before.rows) && PaidOut(s.processor, start, before)
             && StillToVisit(before, batch, j, Settled)
    ensures var after := s.PayAll(w, batch[..j + 1], answers);
            && UniqueGuids(after.rows) && PaidOut(s.processor, start, after)
            && StillToVisit(after, batch, j + 1, Settled)
  {
    var before, a := s.PayAll(w, batch[..j], answers), answers(batch[j].guid);
    var i := IndexOf(before.rows, batch[j]);
    s.PayAllStep(w, batch, j, answers);
    PayKeeps(s, start, before, batch[j], a);
    PayIsPointStep(before, s, batch[j], a, i);
    PointStepKeepsToVisit(before, s.PayRow(before, batch[j], a), batch, j, i, Settled);
    PayRowAt(s, before, batch[j], a, i);
    SameRowsKeepGuids(before.rows, s.PayRow(before, batch[j], a).rows);
  }

  lemma {:induction false} PayAllKeeps(s: Setting, start: Balances, w: Books, batch: seq<Tx>, answers: nat -> PayAnswer,
                                       j: nat)
    requires UniqueGuids(w.rows) && PaidOut(s.processor, start, w)
    requires UniqueGuids(batch) && j <= |batch| && StillToVisit(w, batch, 0, Settled)
    ensures var after := s.PayAll(w, batch[..j], answers);
            && UniqueGuids(after.rows) && PaidOut(s.processor, start, after) && StillToVisit(after, batch, j, Settled)
  {
    if j == 0 {
      assert s.PayAll(w, batch[..0], answers) == w;
    } else {
      PayAllKeeps(s, start, w, batch, answers, j - 1);
      PayIterationKeepsPaid(s, start, w, batch, answers, j - 1);
    }
  }

  lemma JobKeepsPaid(c: Config, job: Job, start: Balances, w: Books, a: PassAnswers)
    requires UniqueGuids(w.rows) && PaidOut(c.processor, start, w)
    ensures UniqueGuids(JobBooks(c, job, w, a).rows) && PaidOut(c.processor, start, JobBooks(c, job, w, a))
  {
    var s, deposited, collected := job.SettingOf(c), DepositBooks(c, job, w, a.deposit), R.CollectedBooks(c, job, w, a);
    var batch := s.Batch(collected.rows, Settled);
    R.JobKeepsRows(c, job, w, a);
    DepositsAreUndisturbed(c, job, w, a.deposit);
    RewritingKeepsPaid(c.processor, start, w, deposited);
    CollectAllKeeps(s, start, deposited, s.Batch(deposited.rows, Processed), a.collect);
    FetchMembers(collected.rows, WithdrawQuery(job.PairOf(c), Settled), BATCH_LIMIT);
    FetchHasUniqueGuids(collected.rows, WithdrawQuery(job.PairOf(c), Settled), BATCH_LIMIT);
    PayAllKeeps(s, start, collected, batch, a.pay, PayVisited(batch, a.pay, 0));
  }

  /** A whole tick of the service, for all outcomes, keeps that account. */
  lemma {:induction false} TickKeepsPaid(c: Config, jobs: seq<Job>, start: Balances, w: Books,
                                         answers: Pair -> PassAnswers)
    requires UniqueGuids(w.rows) && PaidOut(c.processor, start, w)
    ensures var w' := Fold(jobs, w, JobStep(c, answers)); UniqueGuids(w'.rows) && PaidOut(c.processor, start, w')
  {
    if jobs != [] {
      var init, job := jobs[..|jobs| - 1], jobs[|jobs| - 1];
      TickKeepsPaid(c, init, start, w, answers);
      JobKeepsPaid(c, job, start, Fold(init, w, JobStep(c, answers)), answers(job.PairOf(c)));
    }
  }
}
