/** Every run of the withdraw pipeline accounts for each transfer it makes. */
module WithdrawLedger {
  import opened Transactions
  import opened Ledger
  import opened Withdrawals
  import opened Sums

  /** The atomic steps: the three API calls, one iteration of either scheduler phase, and everything else the
      service does, which touches neither withdrawals nor issued coins of the processing sending wallet.
      `UpdateWithdraw` and `DeleteWithdraw` check no status, though the comments in transactions.go ask for `init`
      withdrawals only; here they may act on every row but a collected withdrawal, which is exactly as much as the
      accounts allow (see `ApiCallKeepsCountsIff`). */
  datatype Step =
    | InitWithdraw(t: Tx)
    | UpdateWithdraw(key: Key, hash: string, commission: real)
    | DeleteWithdraw(key: Key)
    | Collect(s: Setting, t: Tx, collect: CollectAnswer)
    | Pay(s: Setting, t: Tx, pay: PayAnswer)
    | Elsewhere(rows: seq<Tx>, balance: Balances)

  /** The withdrawals are the same, and every other row, old or new, is a deposit. */
  ghost predicate DepositsOnly(rows: seq<Tx>, rows': seq<Tx>) {
    && |rows| <= |rows'|
    && UniqueGuids(rows')
    && (forall i :: 0 <= i < |rows| ==>
          && rows'[i].guid == rows[i].guid
          && rows'[i].action == rows[i].action
          && (rows[i].action == Withdraw ==> rows'[i] == rows[i]))
    && (forall i :: |rows| <= i < |rows'| ==> rows'[i].action == Deposit)
  }

  predicate IsCollected(t: Tx) {
    t.action == Withdraw && (t.status == Settled || t.status == Done)
  }

  ghost predicate Uncollected(rows: seq<Tx>, key: Key) {
    forall t :: t in rows && KeyOf(t) == key ==> !IsCollected(t)
  }

  ghost predicate Next(p: Processor, w: Books, step: Step, w': Books) {
    match step
    case InitWithdraw(t) =>
      && t.action == Withdraw && t.status == Init && (forall u :: u in w.rows ==> u.guid != t.guid)
      && w' == w.(rows := w.rows + [t])
    case UpdateWithdraw(key, hash, commission) =>
      Uncollected(w.rows, key) && w' == w.(rows := Put(w.rows, key, Process(hash, commission)))
    case DeleteWithdraw(key) =>
      Uncollected(w.rows, key) && w' == w.(rows := Put(w.rows, key, Reject))
    case Collect(s, t, a) =>
      && s.processor == p && t in w.rows && t.action == Withdraw && t.status == Processed
      && w' == s.CollectRow(w, t, a)
    case Pay(s, t, a) =>
      && s.processor == p && t in w.rows && t.action == Withdraw && t.status == Settled
      && w' == s.PayRow(w, t, a)
    case Elsewhere(rows, balance) =>
      && DepositsOnly(w.rows, rows)
      && (forall c: Coin :: c.issuer != "" ==>
            Bal(balance, ProcessingSending, c) == Bal(w.balance, ProcessingSending, c))
      && w' == w.(rows := rows, balance := balance)
  }

  /** `n` units brought in `ins` times and taken out `outs` times. */
  function Stake(n: int, ins: int, outs: int): int {
    n * (ins - outs)
  }

  /** What a withdrawal has left in the processing sending wallet: collections in, payouts out, unless the
      payout address is that wallet itself. */
  function Holding(p: Processor, w: Books, t: Tx): int {
    var outs := if p.Resolve(t.extWallet) == ProcessingSending then 0 else w.paid[t.guid];
    Stake(Trunc(t.amount), w.collected[t.guid], outs)
  }

  function HoldingIn(p: Processor, w: Books, c: Coin): Tx -> real {
    (t: Tx) => if t.action == Withdraw && p.PaidCoin(t) == c then Holding(p, w, t) as real else 0.0
  }

  predicate Counted(w: Books, t: Tx) {
    && w.collected[t.guid] == (if t.status == Settled || t.status == Done then 1 else 0) + w.unsettled[t.guid]
    && w.paid[t.guid] == (if t.status == Done then 1 else 0) + w.undone[t.guid]
  }

  predicate Untouched(w: Books, g: nat) {
    w.collected[g] == w.paid[g] == w.unsettled[g] == w.undone[g] == 0
  }

  ghost predicate RowsCounted(w: Books) {
    && UniqueGuids(w.rows)
    && (forall i :: 0 <= i < |w.rows| && w.rows[i].action == Withdraw ==> Counted(w, w.rows[i]))
    && (forall g: nat :: HasGuid(w.rows, g) || Untouched(w, g))
  }

  ghost predicate Balanced(p: Processor, start: Balances, w: Books) {
    forall c: Coin :: c.issuer != "" ==>
      Bal(w.balance, ProcessingSending, c) as real
      == Bal(start, ProcessingSending, c) as real + Sum(w.rows, HoldingIn(p, w, c))
  }

  ghost predicate Accounted(p: Processor, start: Balances, w: Books) {
    RowsCounted(w) && Balanced(p, start, w)
  }

  ghost predicate Run(p: Processor, states: seq<Books>, steps: seq<Step>) {
    && |states| == |steps| + 1
    && forall i :: 0 <= i < |steps| ==> Next(p, states[i], steps[i], states[i + 1])
  }

  ghost predicate Initial(w: Books) {
    w.rows == [] && w.collected == w.paid == w.unsettled == w.undone == multiset{}
  }

  /** A step at one row: it changes only that row's columns and counters. */
  ghost predicate PointStep(w: Books, w': Books, i: nat)
    requires i < |w.rows|
  {
    && |w'.rows| == |w.rows|
    && SameIdentity(w.rows[i], w'.rows[i])
    && (forall k :: 0 <= k < |w.rows| && k != i ==> w'.rows[k] == w.rows[k])
    && (forall g :: g != w.rows[i].guid ==>
          && w'.collected[g] == w.collected[g] && w'.paid[g] == w.paid[g]
          && w'.unsettled[g] == w.unsettled[g] && w'.undone[g] == w.undone[g])
  }

  lemma PointStepCounts(w: Books, w': Books, i: nat)
    requires RowsCounted(w) && i < |w.rows| && PointStep(w, w', i)
    requires w.rows[i].action == Withdraw ==> Counted(w', w'.rows[i])
    ensures RowsCounted(w')
  {
    var j := IndexOf(w.rows, w.rows[i]);
    assert j == i;
    forall k | 0 <= k < |w.rows| ensures w'.rows[k].guid == w.rows[k].guid && w'.rows[k].action == w.rows[k].action {
    }
    forall g: nat ensures HasGuid(w'.rows, g) || Untouched(w', g) {
      if HasGuid(w.rows, g) {
        var k :| 0 <= k < |w.rows| && w.rows[k].guid == g;
        assert w'.rows[k].guid == g;
      } else {
        assert Untouched(w, g);
        assert w.rows[i].guid != g;
      }
    }
  }

  lemma PointStepBalances(p: Processor, start: Balances, w: Books, w': Books, i: nat)
    requires UniqueGuids(w.rows) && Balanced(p, start, w) && i < |w.rows| && PointStep(w, w', i)
    requires forall c: Coin :: c.issuer != "" ==>
               Bal(w'.balance, ProcessingSending, c) as real - Bal(w.balance, ProcessingSending, c) as real
               == HoldingIn(p, w', c)(w'.rows[i]) - HoldingIn(p, w, c)(w.rows[i])
    ensures Balanced(p, start, w')
  {
    var j := IndexOf(w.rows, w.rows[i]);
    assert j == i;
    forall c: Coin | c.issuer != ""
      ensures Bal(w'.balance, ProcessingSending, c) as real
           == Bal(start, ProcessingSending, c) as real + Sum(w'.rows, HoldingIn(p, w', c))
    {
      SumDiffersAt(w.rows, w'.rows, HoldingIn(p, w, c), HoldingIn(p, w', c), i);
    }
  }

  lemma CollectIsPointStep(w: Books, s: Setting, t: Tx, a: CollectAnswer, i: nat)
    requires UniqueGuids(w.rows) && i < |w.rows| && w.rows[i] == t && t.status == Processed
    ensures var w' := s.CollectRow(w, t, a);
            && PointStep(w, w', i)
            && w'.rows[i].status == (if s.Collects(w.balance, t, a) && a.stored then Settled else Processed)
  {
    var j := IndexOf(w.rows, t);
    assert j == i;
  }

  lemma PayIsPointStep(w: Books, s: Setting, t: Tx, a: PayAnswer, i: nat)
    requires UniqueGuids(w.rows) && i < |w.rows| && w.rows[i] == t && t.status == Settled
    ensures var w' := s.PayRow(w, t, a);
            && PointStep(w, w', i)
            && w'.rows[i].status == (if a.broadcast.Some? && a.stored then Done else Settled)
  {
    var j := IndexOf(w.rows, t);
    assert j == i;
  }

  lemma StakeSteps(n: int, ins: int, outs: int)
    ensures Stake(n, ins + 1, outs) == Stake(n, ins, outs) + n
    ensures Stake(n, ins, outs + 1) == Stake(n, ins, outs) - n
  {
  }

  /** How one iteration moves the wallet and how it moves the row's holding. */
  lemma HoldingFollowsTransfers(p: Processor, w: Books, w': Books, t: Tx, u: Tx, collects: bool, pays: bool)
    requires SameIdentity(t, u)
    requires w'.collected[t.guid] == w.collected[t.guid] + if collects then 1 else 0
    requires w'.paid[t.guid] == w.paid[t.guid] + if pays then 1 else 0
    requires !(collects && pays)
    ensures Holding(p, w', u) == Holding(p, w, t)
         + (if collects then Trunc(t.amount) else 0)
         - (if pays && p.Resolve(t.extWallet) != ProcessingSending then Trunc(t.amount) else 0)
  {
    var outs := if p.Resolve(t.extWallet) == ProcessingSending then 0 else w.paid[t.guid];
    StakeSteps(Trunc(t.amount), w.collected[t.guid], outs);
  }

  lemma CollectMoves(p: Processor, w: Books, s: Setting, t: Tx, a: CollectAnswer, u: Tx, c: Coin)
    requires s.processor == p && t.action == Withdraw && SameIdentity(t, u)
    ensures var w' := s.CollectRow(w, t, a);
            Bal(w'.balance, ProcessingSending, c) as real - Bal(w.balance, ProcessingSending, c) as real
            == HoldingIn(p, w', c)(u) - HoldingIn(p, w, c)(t)
  {
    HoldingFollowsTransfers(p, w, s.CollectRow(w, t, a), t, u, s.Collects(w.balance, t, a), false);
  }

  lemma PayMoves(p: Processor, w: Books, s: Setting, t: Tx, a: PayAnswer, u: Tx, c: Coin)
    requires s.processor == p && t.action == Withdraw && SameIdentity(t, u)
    ensures var w' := s.PayRow(w, t, a);
            Bal(w'.balance, ProcessingSending, c) as real - Bal(w.balance, ProcessingSending, c) as real
            == HoldingIn(p, w', c)(u) - HoldingIn(p, w, c)(t)
  {
    HoldingFollowsTransfers(p, w, s.PayRow(w, t, a), t, u, false, a.broadcast.Some?);
  }

  lemma CollectKeeps(p: Processor, start: Balances, w: Books, s: Setting, t: Tx, a: CollectAnswer)
    requires Accounted(p, start, w) && s.processor == p
    requires t in w.rows && t.action == Withdraw && t.status == Processed
    ensures Accounted(p, start, s.CollectRow(w, t, a))
  {
    var i := IndexOf(w.rows, t);
    var w' := s.CollectRow(w, t, a);
    CollectIsPointStep(w, s, t, a, i);
    assert Counted(w', w'.rows[i]) by {
      assert Counted(w, w.rows[i]);
    }
    PointStepCounts(w, w', i);
    forall c: Coin | c.issuer != ""
      ensures Bal(w'.balance, ProcessingSending, c) as real - Bal(w.balance, ProcessingSending, c) as real
           == HoldingIn(p, w', c)(w'.rows[i]) - HoldingIn(p, w, c)(w.rows[i])
    {
      CollectMoves(p, w, s, t, a, w'.rows[i], c);
    }
    PointStepBalances(p, start, w, w', i);
  }

  lemma PayKeeps(p: Processor, start: Balances, w: Books, s: Setting, t: Tx, a: PayAnswer)
    requires Accounted(p, start, w) && s.processor == p
    requires t in w.rows && t.action == Withdraw && t.status == Settled
    ensures Accounted(p, start, s.PayRow(w, t, a))
  {
    var i := IndexOf(w.rows, t);
    var w' := s.PayRow(w, t, a);
    PayIsPointStep(w, s, t, a, i);
    assert Counted(w', w'.rows[i]) by {
      assert Counted(w, w.rows[i]);
    }
    PointStepCounts(w, w', i);
    forall c: Coin | c.issuer != ""
      ensures Bal(w'.balance, ProcessingSending, c) as real - Bal(w.balance, ProcessingSending, c) as real
           == HoldingIn(p, w', c)(w'.rows[i]) - HoldingIn(p, w, c)(w.rows[i])
    {
      PayMoves(p, w, s, t, a, w'.rows[i], c);
    }
    PointStepBalances(p, start, w, w', i);
  }

  lemma RelabelKeepsCounts(w: Books, rows: seq<Tx>)
    requires RowsCounted(w) && |rows| == |w.rows|
    requires forall i :: 0 <= i < |rows| ==> SameIdentity(w.rows[i], rows[i])
    requires forall i :: 0 <= i < |rows| && rows[i].action == Withdraw ==> Counted(w, rows[i])
    ensures RowsCounted(w.(rows := rows))
  {
    var w' := w.(rows := rows);
    forall i | 0 <= i < |rows| ensures rows[i].guid == w.rows[i].guid {
      assert SameIdentity(w.rows[i], rows[i]);
    }
    forall g: nat ensures HasGuid(rows, g) || Untouched(w', g) {
      if HasGuid(w.rows, g) {
        var k :| 0 <= k < |w.rows| && w.rows[k].guid == g;
        assert rows[k].guid == g;
      }
      assert Untouched(w, g) == Untouched(w', g);
    }
  }

  /** Rewriting status, hashes and commission changes no total as long as the counters still fit. */
  lemma RelabelKeeps(p: Processor, start: Balances, w: Books, rows: seq<Tx>)
    requires Accounted(p, start, w) && |rows| == |w.rows|
    requires forall i :: 0 <= i < |rows| ==> SameIdentity(w.rows[i], rows[i])
    requires forall i :: 0 <= i < |rows| && rows[i].action == Withdraw ==> Counted(w, rows[i])
    ensures Accounted(p, start, w.(rows := rows))
  {
    var w' := w.(rows := rows);
    RelabelKeepsCounts(w, rows);
    forall c: Coin | c.issuer != ""
      ensures Bal(w'.balance, ProcessingSending, c) as real
           == Bal(start, ProcessingSending, c) as real + Sum(rows, HoldingIn(p, w', c))
    {
      SumSame(w.rows, rows, HoldingIn(p, w, c), HoldingIn(p, w', c));
    }
  }

  lemma ApiCallFits(w: Books, key: Key, e: Edit)
    requires RowsCounted(w) && Uncollected(w.rows, key) && (e.Process? || e.Reject?)
    ensures var rows := Put(w.rows, key, e);
            forall i :: 0 <= i < |rows| ==>
              SameIdentity(w.rows[i], rows[i]) && (rows[i].action == Withdraw ==> Counted(w, rows[i]))
  {
    var rows := Put(w.rows, key, e);
    forall i | 0 <= i < |rows| && rows[i].action == Withdraw ensures Counted(w, rows[i]) {
      assert Counted(w, w.rows[i]) && w.rows[i] in w.rows;
    }
  }

  lemma ApiCallKeeps(p: Processor, start: Balances, w: Books, key: Key, e: Edit)
    requires Accounted(p, start, w) && Uncollected(w.rows, key) && (e.Process? || e.Reject?)
    ensures Accounted(p, start, w.(rows := Put(w.rows, key, e)))
  {
    ApiCallFits(w, key, e);
    RelabelKeeps(p, start, w, Put(w.rows, key, e));
  }

  lemma InitWithdrawKeepsCounts(w: Books, t: Tx)
    requires RowsCounted(w) && t.status == Init
    requires forall u :: u in w.rows ==> u.guid != t.guid
    ensures RowsCounted(w.(rows := w.rows + [t])) && Untouched(w, t.guid)
  {
    var w' := w.(rows := w.rows + [t]);
    assert !HasGuid(w.rows, t.guid);
    assert Untouched(w, t.guid);
    forall g: nat ensures HasGuid(w'.rows, g) || Untouched(w', g) {
      if HasGuid(w.rows, g) {
        var k :| 0 <= k < |w.rows| && w.rows[k].guid == g;
        assert w'.rows[k].guid == g;
      }
      assert Untouched(w, g) == Untouched(w', g);
    }
    forall i | 0 <= i < |w'.rows| && w'.rows[i].action == Withdraw ensures Counted(w', w'.rows[i]) {
      assert i < |w.rows| ==> Counted(w, w.rows[i]);
    }
  }

  lemma InitWithdrawKeeps(p: Processor, start: Balances, w: Books, t: Tx)
    requires Accounted(p, start, w) && t.status == Init
    requires forall u :: u in w.rows ==> u.guid != t.guid
    ensures Accounted(p, start, w.(rows := w.rows + [t]))
  {
    var w' := w.(rows := w.rows + [t]);
    InitWithdrawKeepsCounts(w, t);
    forall c: Coin | c.issuer != ""
      ensures Bal(w'.balance, ProcessingSending, c) as real
           == Bal(start, ProcessingSending, c) as real + Sum(w'.rows, HoldingIn(p, w', c))
    {
      SumAppend(w.rows, t, HoldingIn(p, w', c));
      SumSame(w.rows, w.rows, HoldingIn(p, w, c), HoldingIn(p, w', c));
      assert HoldingIn(p, w', c)(t) == 0.0;
    }
  }

  lemma {:induction false} SumOverDeposits(rows: seq<Tx>, n: nat, p: Processor, w: Books, c: Coin)
    requires n <= |rows| && forall i :: n <= i < |rows| ==> rows[i].action == Deposit
    ensures Sum(rows, HoldingIn(p, w, c)) == Sum(rows[..n], HoldingIn(p, w, c))
  {
    if n == |rows| {
      assert rows[..n] == rows;
    } else {
      SumOverDeposits(rows[..|rows| - 1], n, p, w, c);
      assert rows[..|rows| - 1][..n] == rows[..n];
    }
  }

  lemma ElsewhereKeeps(p: Processor, start: Balances, w: Books, rows: seq<Tx>, balance: Balances)
    requires Accounted(p, start, w) && DepositsOnly(w.rows, rows)
    requires forall c: Coin :: c.issuer != "" ==>
               Bal(balance, ProcessingSending, c) == Bal(w.balance, ProcessingSending, c)
    ensures Accounted(p, start, w.(rows := rows, balance := balance))
  {
    var w' := w.(rows := rows, balance := balance);
    forall g: nat ensures HasGuid(rows, g) || Untouched(w', g) {
      if HasGuid(w.rows, g) {
        var k :| 0 <= k < |w.rows| && w.rows[k].guid == g;
        assert rows[k].guid == g;
      }
      assert Untouched(w, g) == Untouched(w', g);
    }
    forall i | 0 <= i < |rows| && rows[i].action == Withdraw ensures Counted(w', rows[i]) {
      assert Counted(w, w.rows[i]);
    }
    forall c: Coin | c.issuer != ""
      ensures Bal(w'.balance, ProcessingSending, c) as real
           == Bal(start, ProcessingSending, c) as real + Sum(rows, HoldingIn(p, w', c))
    {
      SumOverDeposits(rows, |w.rows|, p, w', c);
      SumSame(w.rows, rows[..|w.rows|], HoldingIn(p, w, c), HoldingIn(p, w', c));
    }
  }

  lemma NextKeeps(p: Processor, start: Balances, w: Books, step: Step, w': Books)
    requires Accounted(p, start, w) && Next(p, w, step, w')
    ensures Accounted(p, start, w')
  {
    match step
    case InitWithdraw(t) => InitWithdrawKeeps(p, start, w, t);
    case UpdateWithdraw(key, hash, commission) => ApiCallKeeps(p, start, w, key, Process(hash, commission));
    case DeleteWithdraw(key) => ApiCallKeeps(p, start, w, key, Reject);
    case Collect(s, t, a) => CollectKeeps(p, start, w, s, t, a);
    case Pay(s, t, a) => PayKeeps(p, start, w, s, t, a);
    case Elsewhere(rows, balance) => ElsewhereKeeps(p, start, w, rows, balance);
  }

  /** In every run, collections of a withdrawal = (1 if settle or done) + failed settle writes, payouts =
      (1 if done) + failed done writes, and the processing sending wallet holds exactly what was collected
      and not yet paid out. */
  lemma {:induction false} EveryRunIsAccounted(p: Processor, states: seq<Books>, steps: seq<Step>, n: nat)
    requires Run(p, states, steps) && Initial(states[0]) && n < |states|
    ensures Accounted(p, states[0].balance, states[n])
  {
    if n == 0 {
      forall c: Coin ensures Sum(states[0].rows, HoldingIn(p, states[0], c)) == 0.0 {
      }
    } else {
      EveryRunIsAccounted(p, states, steps, n - 1);
      assert Next(p, states[n - 1], steps[n - 1], states[n]);
      NextKeeps(p, states[0].balance, states[n - 1], steps[n - 1], states[n]);
    }
  }

  function Unpaid(p: Processor, c: Coin): Tx -> real {
    (t: Tx) =>
      if t.action == Withdraw && t.status == Settled && p.PaidCoin(t) == c then Trunc(t.amount) as real else 0.0
  }

  /** Without failed writes and without payouts to the processor's own wallet, every withdrawal is collected
      once and paid once, and the wallet differs from its start by the truncated amounts still in `settle`. */
  lemma CleanRunPaysOnce(p: Processor, states: seq<Books>, steps: seq<Step>, n: nat, c: Coin)
    requires Run(p, states, steps) && Initial(states[0]) && n < |states|
    requires states[n].unsettled == states[n].undone == multiset{}
    requires c.issuer != ""
    requires forall t :: t in states[n].rows && t.action == Withdraw ==> p.Resolve(t.extWallet) != ProcessingSending
    ensures forall t :: t in states[n].rows && t.action == Withdraw ==>
              && states[n].collected[t.guid] == (if t.status == Settled || t.status == Done then 1 else 0)
              && states[n].paid[t.guid] == (if t.status == Done then 1 else 0)
    ensures Bal(states[n].balance, ProcessingSending, c) as real
         == Bal(states[0].balance, ProcessingSending, c) as real + Sum(states[n].rows, Unpaid(p, c))
  {
    EveryRunIsAccounted(p, states, steps, n);
    var w := states[n];
    forall i | 0 <= i < |w.rows| ensures HoldingIn(p, w, c)(w.rows[i]) == Unpaid(p, c)(w.rows[i]) {
      if w.rows[i].action == Withdraw {
        assert Counted(w, w.rows[i]);
        StakeSteps(Trunc(w.rows[i].amount), 0, 0);
      }
    }
    SumSame(w.rows, w.rows, HoldingIn(p, w, c), Unpaid(p, c));
  }

  /** The rows a phase still has to visit. */
  ghost predicate StillToVisit(w: Books, batch: seq<Tx>, j: nat, status: Status)
    requires j <= |batch|
  {
    forall k :: j <= k < |batch| ==> batch[k] in w.rows && batch[k].action == Withdraw && batch[k].status == status
  }

  lemma PointStepKeepsToVisit(w: Books, w': Books, batch: seq<Tx>, j: nat, i: nat, status: Status)
    requires UniqueGuids(batch) && j < |batch| && StillToVisit(w, batch, j, status)
    requires i < |w.rows| && w.rows[i] == batch[j] && PointStep(w, w', i)
    ensures StillToVisit(w', batch, j + 1, status)
  {
    forall k | j + 1 <= k < |batch| ensures batch[k] in w'.rows {
      var r :| 0 <= r < |w.rows| && w.rows[r] == batch[k];
      assert batch[k].guid != batch[j].guid;
      assert w'.rows[r] == w.rows[r];
    }
  }

  lemma CollectVisitKeeps(p: Processor, start: Balances, w: Books, s: Setting, batch: seq<Tx>, j: nat, a: CollectAnswer)
    requires Accounted(p, start, w) && s.processor == p
    requires UniqueGuids(batch) && j < |batch| && StillToVisit(w, batch, j, Processed)
    ensures Accounted(p, start, s.CollectRow(w, batch[j], a))
    ensures StillToVisit(s.CollectRow(w, batch[j], a), batch, j + 1, Processed)
  {
    var i := IndexOf(w.rows, batch[j]);
    CollectIsPointStep(w, s, batch[j], a, i);
    CollectKeeps(p, start, w, s, batch[j], a);
    PointStepKeepsToVisit(w, s.CollectRow(w, batch[j], a), batch, j, i, Processed);
  }

  lemma PayVisitKeeps(p: Processor, start: Balances, w: Books, s: Setting, batch: seq<Tx>, j: nat, a: PayAnswer)
    requires Accounted(p, start, w) && s.processor == p
    requires UniqueGuids(batch) && j < |batch| && StillToVisit(w, batch, j, Settled)
    ensures Accounted(p, start, s.PayRow(w, batch[j], a))
    ensures StillToVisit(s.PayRow(w, batch[j], a), batch, j + 1, Settled)
  {
    var i := IndexOf(w.rows, batch[j]);
    PayIsPointStep(w, s, batch[j], a, i);
    PayKeeps(p, start, w, s, batch[j], a);
    PointStepKeepsToVisit(w, s.PayRow(w, batch[j], a), batch, j, i, Settled);
  }

  lemma CollectIterationKeeps(p: Processor, start: Balances, w: Books, s: Setting, batch: seq<Tx>,
                              answers: nat -> CollectAnswer, j: nat)
    requires s.processor == p && UniqueGuids(batch) && j < |batch|
    requires Accounted(p, start, s.CollectAll(w, batch[..j], answers))
    requires StillToVisit(s.CollectAll(w, batch[..j], answers), batch, j, Processed)
    ensures Accounted(p, start, s.CollectAll(w, batch[..j + 1], answers))
    ensures StillToVisit(s.CollectAll(w, batch[..j + 1], answers), batch, j + 1, Processed)
  {
    s.CollectAllStep(w, batch, j, answers);
    CollectVisitKeeps(p, start, s.CollectAll(w, batch[..j], answers), s, batch, j, answers(batch[j].guid));
  }

  lemma {:induction false} CollectLoopKeeps(p: Processor, start: Balances, w: Books, s: Setting, batch: seq<Tx>,
                                            answers: nat -> CollectAnswer, j: nat)
    requires Accounted(p, start, w) && s.processor == p
    requires UniqueGuids(batch) && j <= |batch| && StillToVisit(w, batch, 0, Processed)
    ensures Accounted(p, start, s.CollectAll(w, batch[..j], answers))
    ensures StillToVisit(s.CollectAll(w, batch[..j], answers), batch, j, Processed)
  {
    if j == 0 {
      assert s.CollectAll(w, batch[..0], answers) == w;
    } else {
      CollectLoopKeeps(p, start, w, s, batch, answers, j - 1);
      CollectIterationKeeps(p, start, w, s, batch, answers, j - 1);
    }
  }

  lemma PayIterationKeeps(p: Processor, start: Balances, w: Books, s: Setting, batch: seq<Tx>,
                          answers: nat -> PayAnswer, j: nat)
    requires s.processor == p && UniqueGuids(batch) && j < |batch|
    requires Accounted(p, start, s.PayAll(w, batch[..j], answers))
    requires StillToVisit(s.PayAll(w, batch[..j], answers), batch, j, Settled)
    ensures Accounted(p, start, s.PayAll(w, batch[..j + 1], answers))
    ensures StillToVisit(s.PayAll(w, batch[..j + 1], answers), batch, j + 1, Settled)
  {
    s.PayAllStep(w, batch, j, answers);
    PayVisitKeeps(p, start, s.PayAll(w, batch[..j], answers), s, batch, j, answers(batch[j].guid));
  }

  lemma {:induction false} PayLoopKeeps(p: Processor, start: Balances, w: Books, s: Setting, batch: seq<Tx>,
                                        answers: nat -> PayAnswer, j: nat)
    requires Accounted(p, start, w) && s.processor == p
    requires UniqueGuids(batch) && j <= |batch| && StillToVisit(w, batch, 0, Settled)
    ensures Accounted(p, start, s.PayAll(w, batch[..j], answers))
    ensures StillToVisit(s.PayAll(w, batch[..j], answers), batch, j, Settled)
  {
    if j == 0 {
      assert s.PayAll(w, batch[..0], answers) == w;
    } else {
      PayLoopKeeps(p, start, w, s, batch, answers, j - 1);
      PayIterationKeeps(p, start, w, s, batch, answers, j - 1);
    }
  }

  /** Both withdraw phases as a whole keep the accounts: every iteration of `processWithdrawProcessed` is a
      `Collect` step and every iteration of `processWithdrawSettled`, up to where it stops, a `Pay` step. */
  lemma PhasesKeepAccounts(p: Processor, start: Balances, w: Books, s: Setting,
                           collects: nat -> CollectAnswer, pays: nat -> PayAnswer)
    requires Accounted(p, start, w) && s.processor == p
    ensures Accounted(p, start, s.CollectAll(w, s.Batch(w.rows, Processed), collects))
    ensures var batch := s.Batch(w.rows, Settled);
            Accounted(p, start, s.PayAll(w, batch[..PayVisited(batch, pays, 0)], pays))
  {
    var batch := s.Batch(w.rows, Processed);
    FetchHasUniqueGuids(w.rows, Query(s.merchant, s.blockchain, Withdraw, Processed), BATCH_LIMIT);
    FetchMembers(w.rows, Query(s.merchant, s.blockchain, Withdraw, Processed), BATCH_LIMIT);
    CollectLoopKeeps(p, start, w, s, batch, collects, |batch|);
    assert batch[..|batch|] == batch;
    FetchHasUniqueGuids(w.rows, Query(s.merchant, s.blockchain, Withdraw, Settled), BATCH_LIMIT);
    FetchMembers(w.rows, Query(s.merchant, s.blockchain, Withdraw, Settled), BATCH_LIMIT);
    PayLoopKeeps(p, start, w, s, s.Batch(w.rows, Settled), pays, PayVisited(s.Batch(w.rows, Settled), pays, 0));
  }

  /** The API calls write a row whatever its status. The counts survive that if and only if the row is not a
      withdrawal that has been collected. */
  lemma ApiCallKeepsCountsIff(w: Books, key: Key, e: Edit)
    requires RowsCounted(w) && (e.Process? || e.Reject?)
    ensures RowsCounted(w.(rows := Put(w.rows, key, e))) <==> Uncollected(w.rows, key)
  {
    var w' := w.(rows := Put(w.rows, key, e));
    if Uncollected(w.rows, key) {
      ApiCallFits(w, key, e);
      RelabelKeepsCounts(w, w'.rows);
    } else {
      var t :| t in w.rows && KeyOf(t) == key && IsCollected(t);
      var i := IndexOf(w.rows, t);
      assert Counted(w, t) && !Counted(w', w'.rows[i]);
    }
  }

  /** What goes wrong otherwise: a withdrawal that is done and updated again is collected and paid a second time. */
  lemma UpdatedAgainIsPaidAgain(s: Setting, w: Books, t: Tx, hash: string, commission: real,
                                a: CollectAnswer, b: PayAnswer)
    requires RowsCounted(w) && t in w.rows && t.action == Withdraw && t.status == Done
    requires a.stored && b.broadcast.Some?
    requires s.Collects(w.balance, t, a)
    ensures var t1 := Edited(t, Process(hash, commission));
            var w1 := w.(rows := Put(w.rows, KeyOf(t), Process(hash, commission)));
            var w2 := s.CollectRow(w1, t1, a);
            && t1 in w1.rows && t1.status == Processed
            && w2.collected[t.guid] == 2 + w.unsettled[t.guid]
            && exists t2 :: t2 in w2.rows && t2.guid == t.guid && t2.status == Settled
                            && s.PayRow(w2, t2, b).paid[t.guid] == 2 + w.undone[t.guid]
  {
    var i := IndexOf(w.rows, t);
    assert Counted(w, t);
    var w1 := w.(rows := Put(w.rows, KeyOf(t), Process(hash, commission)));
    var t1 := w1.rows[i];
    var t2 := s.CollectRow(w1, t1, a).rows[i];
    assert t2.guid == t.guid && t2.status == Settled;
  }
}
