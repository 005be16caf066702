/** Every run accounts for what passes through the processing receiving wallet, and for what is settled to the service's
    own keys of multi-signature wallets. */
module ReceivingLedger {
  import opened Transactions
  import opened Ledger
  import opened Sums
  import opened Settlement
  import opened SettlementTheorems
  import opened Deposits
  import opened Withdrawals
  import opened Passes
  import opened Callbacks
  import opened Scheduler
  import opened TickTheorems

  /** The books; `arrived` counts how often each transaction's units came into the processing receiving wallet, and
      `paidOut` are accounts in which nothing but the settlements is entered. */
  datatype Vault = Vault(books: Books, arrived: multiset<nat>, paidOut: Balances)

  /** The coin that a transaction's transfers are made in. */
  function CoinOf(p: Processor, t: Tx): Coin {
    if t.action == Deposit then Coin(t.asset, t.issuer) else p.PaidCoin(t)
  }

  function Times(n: int, k: nat): int {
    n * k
  }

  lemma OnceMore(n: int, k: nat)
    ensures Times(n, k + 1) == Times(n, k) + n && Times(n, 0) == 0
  {
  }

  function ArrivedW(p: Processor, arrived: multiset<nat>, c: Coin): Tx -> real {
    (t: Tx) => if CoinOf(p, t) == c then Times(Trunc(t.amount), arrived[t.guid]) as real else 0.0
  }

  // Transfers into the wallet, one loop at a time.

  /** The transactions of a batch whose units arrive, … */
  function Arrivals(batch: seq<Tx>, arrives: Tx -> bool): multiset<nat> {
    if batch == [] then multiset{}
    else
      var last := batch[|batch| - 1];
      Arrivals(batch[..|batch| - 1], arrives) + (if arrives(last) then multiset{last.guid} else multiset{})
  }

  /** … and how many units of a coin that makes. */
  function Units(p: Processor, batch: seq<Tx>, arrives: Tx -> bool, c: Coin): int {
    if batch == [] then 0
    else
      var last := batch[|batch| - 1];
      Units(p, batch[..|batch| - 1], arrives, c)
      + (if arrives(last) && CoinOf(p, last) == c then Trunc(last.amount) else 0)
  }

  lemma OneArrivalAdds(rows: seq<Tx>, p: Processor, arrived: multiset<nat>, t: Tx, c: Coin)
    requires UniqueGuids(rows) && t in rows
    ensures Sum(rows, ArrivedW(p, arrived + multiset{t.guid}, c))
         == Sum(rows, ArrivedW(p, arrived, c)) + (if CoinOf(p, t) == c then Trunc(t.amount) else 0) as real
  {
    var i := IndexOf(rows, t);
    OnceMore(Trunc(t.amount), arrived[t.guid]);
    SumDiffersAt(rows, rows, ArrivedW(p, arrived, c), ArrivedW(p, arrived + multiset{t.guid}, c), i);
  }

  lemma {:induction false} ArrivalsAdd(rows: seq<Tx>, p: Processor, arrived: multiset<nat>, batch: seq<Tx>,
                                       arrives: Tx -> bool, c: Coin)
    requires UniqueGuids(rows) && forall t :: t in batch ==> t in rows
    ensures Sum(rows, ArrivedW(p, arrived + Arrivals(batch, arrives), c))
         == Sum(rows, ArrivedW(p, arrived, c)) + Units(p, batch, arrives, c) as real
  {
    if batch == [] {
      assert arrived + multiset{} == arrived;
    } else {
      var init, last := batch[..|batch| - 1], batch[|batch| - 1];
      ArrivalsAdd(rows, p, arrived, init, arrives, c);
      if arrives(last) {
        assert arrived + Arrivals(batch, arrives) == arrived + Arrivals(init, arrives) + multiset{last.guid};
        assert last in batch;
        OneArrivalAdds(rows, p, arrived + Arrivals(init, arrives), last, c);
      } else {
        assert Arrivals(init, arrives) + multiset{} == Arrivals(init, arrives);
      }
    }
  }

  lemma {:induction false} ArrivalsAreOfTheBatch(batch: seq<Tx>, arrives: Tx -> bool)
    ensures forall g :: g in Arrivals(batch, arrives) ==> exists t :: t in batch && t.guid == g
  {
    if batch != [] {
      var init, last := batch[..|batch| - 1], batch[|batch| - 1];
      ArrivalsAreOfTheBatch(init, arrives);
      forall g | g in Arrivals(batch, arrives) ensures exists t :: t in batch && t.guid == g {
        if g in Arrivals(init, arrives) {
          var t :| t in init && t.guid == g;
          assert t in batch;
        } else {
          assert last in batch && last.guid == g;
        }
      }
    }
  }

  function Landings(answers: nat -> InitAnswer): Tx -> bool {
    (t: Tx) => Lands(t, answers(t.guid))
  }

  /** A withdrawal may name the processing receiving wallet as its address. */
  function PaidBack(p: Processor, answers: nat -> PayAnswer): Tx -> bool {
    (t: Tx) => answers(t.guid).broadcast.Some? && p.Resolve(t.extWallet) == ProcessingReceiving
  }

  /** The accounts of service keys and those of users and processing are different ones. */
  ghost predicate OwnKeysKept(b: Balances, b': Balances, c: Coin) {
    forall m, e :: Bal(b', OwnKey(m, e), c) == Bal(b, OwnKey(m, e), c)
  }

  lemma {:induction false} GatherArrives(p: Processor, b: Balances, batch: seq<Tx>, answers: nat -> InitAnswer, c: Coin)
    requires forall t :: t in batch ==> t.action == Deposit
    ensures var b' := Gather(b, batch, answers);
            && Bal(b', ProcessingReceiving, c) == Bal(b, ProcessingReceiving, c) + Units(p, batch, Landings(answers), c)
            && OwnKeysKept(b, b', c)
  {
    if batch != [] {
      assert batch[|batch| - 1] in batch;
      GatherArrives(p, b, batch[..|batch| - 1], answers, c);
    }
  }

  lemma PayRowArrives(s: Setting, w: Books, t: Tx, a: PayAnswer, c: Coin)
    ensures var b', back := s.PayRow(w, t, a).balance,
                            a.broadcast.Some? && s.processor.Resolve(t.extWallet) == ProcessingReceiving;
            && Bal(b', ProcessingReceiving, c)
               == Bal(w.balance, ProcessingReceiving, c)
                  + (if back && s.processor.PaidCoin(t) == c then Trunc(t.amount) else 0)
            && OwnKeysKept(w.balance, b', c)
  {
  }

  lemma {:induction false} PayAllArrives(s: Setting, w: Books, batch: seq<Tx>, answers: nat -> PayAnswer, c: Coin)
    requires forall t :: t in batch ==> t.action == Withdraw
    ensures var b', arrives := s.PayAll(w, batch, answers).balance, PaidBack(s.processor, answers);
            && Bal(b', ProcessingReceiving, c)
               == Bal(w.balance, ProcessingReceiving, c) + Units(s.processor, batch, arrives, c)
            && OwnKeysKept(w.balance, b', c)
  {
    if batch != [] {
      var rest, last := batch[..|batch| - 1], batch[|batch| - 1];
      assert last in batch;
      PayAllArrives(s, w, rest, answers, c);
      PayRowArrives(s, s.PayAll(w, rest, answers), last, answers(last.guid), c);
    }
  }

  lemma CollectRowArrivesElsewhere(s: Setting, w: Books, t: Tx, a: CollectAnswer, c: Coin)
    ensures var b' := s.CollectRow(w, t, a).balance;
            && Bal(b', ProcessingReceiving, c) == Bal(w.balance, ProcessingReceiving, c)
            && OwnKeysKept(w.balance, b', c)
  {
  }

  lemma {:induction false} CollectAllArrivesElsewhere(s: Setting, w: Books, batch: seq<Tx>,
                                                      answers: nat -> CollectAnswer, c: Coin)
    ensures var b' := s.CollectAll(w, batch, answers).balance;
            && Bal(b', ProcessingReceiving, c) == Bal(w.balance, ProcessingReceiving, c)
            && OwnKeysKept(w.balance, b', c)
  {
    if batch != [] {
      var rest, last := batch[..|batch| - 1], batch[|batch| - 1];
      CollectAllArrivesElsewhere(s, w, rest, answers, c);
      CollectRowArrivesElsewhere(s, s.CollectAll(w, rest, answers), last, answers(last.guid), c);
    }
  }

  /** A settlement moves every account by the same amount, whatever the balances are. */
  lemma {:induction false} DisburseShifts(s: Settlement, b: Balances, b': Balances, to: Account, n: nat, a: Account,
                                          c: Coin)
    requires n <= |s.batch|
    ensures Bal(s.Disburse(b, to, n), a, c) - Bal(b, a, c) == Bal(s.Disburse(b', to, n), a, c) - Bal(b', a, c)
  {
    if n > 0 {
      DisburseShifts(s, b, b', to, n - 1, a, c);
    }
  }

  // One wallet's share of a tick.

  function SettlementOf(c: Config, job: Job, rows: seq<Tx>, a: DepositAnswers): Settlement {
    Settlement(DepositBatch(InitPhase(rows, job.PairOf(c), a.init), job.PairOf(c), Processed), job.TermsOf(c), a.settle)
  }

  function CollectedBooks(c: Config, job: Job, w: Books, a: PassAnswers): Books {
    var s, deposited := job.SettingOf(c), DepositBooks(c, job, w, a.deposit);
    s.CollectAll(deposited, s.Batch(deposited.rows, Processed), a.collect)
  }

  function Payouts(c: Config, job: Job, w: Books, a: PassAnswers): seq<Tx> {
    var batch := job.SettingOf(c).Batch(CollectedBooks(c, job, w, a).rows, Settled);
    batch[..PayVisited(batch, a.pay, 0)]
  }

  function Landed(c: Config, job: Job, w: Books, a: PassAnswers): multiset<nat> {
    Arrivals(DepositBatch(w.rows, job.PairOf(c), Init), Landings(a.deposit.init))
  }

  function Worked(c: Config, job: Job, v: Vault, a: PassAnswers): Vault {
    var s := SettlementOf(c, job, v.books.rows, a.deposit);
    Vault(JobBooks(c, job, v.books, a),
          v.arrived + Landed(c, job, v.books, a) + Arrivals(Payouts(c, job, v.books, a), PaidBack(c.processor, a.pay)),
          s.Disburse(v.paidOut, job.PayeeOf(c), s.VisitedFrom(0)))
  }

  // The account.

  /** What the settlements took out of the processing receiving wallet. */
  function Disbursed(v: Vault, c: Coin): int {
    -Bal(v.paidOut, ProcessingReceiving, c)
  }

  ghost predicate Explained(p: Processor, start: Balances, v: Vault, c: Coin) {
    && Bal(v.books.balance, ProcessingReceiving, c) as real
       == Bal(start, ProcessingReceiving, c) as real + Sum(v.books.rows, ArrivedW(p, v.arrived, c))
          - Disbursed(v, c) as real
    && forall m, e ::
         Bal(v.books.balance, OwnKey(m, e), c) == Bal(start, OwnKey(m, e), c) + Bal(v.paidOut, OwnKey(m, e), c)
  }

  ghost predicate RowsKnown(v: Vault) {
    && UniqueGuids(v.books.rows)
    && forall g :: g in v.arrived ==> HasGuid(v.books.rows, g)
  }

  ghost predicate Balanced(p: Processor, start: Balances, v: Vault) {
    RowsKnown(v) && forall c: Coin :: c.issuer != "" ==> Explained(p, start, v, c)
  }

  lemma SumIgnoresStatus(rows: seq<Tx>, rows': seq<Tx>, p: Processor, arrived: multiset<nat>, c: Coin)
    requires SameRows(rows, rows')
    ensures Sum(rows, ArrivedW(p, arrived, c)) == Sum(rows', ArrivedW(p, arrived, c))
  {
    forall k | 0 <= k < |rows| ensures ArrivedW(p, arrived, c)(rows[k]) == ArrivedW(p, arrived, c)(rows'[k]) {
      assert SameIdentity(rows[k], rows'[k]);
    }
    SumSame(rows, rows', ArrivedW(p, arrived, c), ArrivedW(p, arrived, c));
  }

  // A wallet's share of a tick keeps the account.

  lemma JobKeepsRows(c: Config, job: Job, w: Books, a: PassAnswers)
    requires UniqueGuids(w.rows)
    ensures var deposited, collected := DepositBooks(c, job, w, a.deposit), CollectedBooks(c, job, w, a);
            && SameRows(w.rows, deposited.rows)
            && SameRows(deposited.rows, collected.rows) && UniqueGuids(collected.rows)
            && SameRows(collected.rows, JobBooks(c, job, w, a).rows) && UniqueGuids(JobBooks(c, job, w, a).rows)
  {
    var p, s := job.PairOf(c), job.SettingOf(c);
    var deposited, collected := DepositBooks(c, job, w, a.deposit), CollectedBooks(c, job, w, a);
    DepositsKeepGuids(w.rows, p, job.TermsOf(c), a.deposit);
    var batch := s.Batch(deposited.rows, Processed);
    FetchHasUniqueGuids(deposited.rows, WithdrawQuery(p, Processed), BATCH_LIMIT);
    var results := CollectAllIsPuts(deposited, s, batch, a.collect);
    PutsKeepRows(deposited.rows, batch, CollectEdits(s.terms, results));
    SameRowsKeepGuids(deposited.rows, collected.rows);
    PayAllIsPuts(collected, s, Payouts(c, job, w, a), a.pay);
    PutsKeepRows(collected.rows, Payouts(c, job, w, a), PayEdits(a.pay));
    SameRowsKeepGuids(collected.rows, JobBooks(c, job, w, a).rows);
  }

  lemma LandingsAreDeposits(rows: seq<Tx>, p: Pair)
    ensures forall t :: t in DepositBatch(rows, p, Init) ==> t in rows && t.action == Deposit
  {
    FetchMembers(rows, Query(p.merchant, p.blockchain, Deposit, Init), BATCH_LIMIT);
  }

  lemma PayoutsAreWithdrawals(c: Config, job: Job, w: Books, a: PassAnswers)
    ensures forall t :: t in Payouts(c, job, w, a) ==> t in CollectedBooks(c, job, w, a).rows && t.action == Withdraw
  {
    FetchMembers(CollectedBooks(c, job, w, a).rows, WithdrawQuery(job.PairOf(c), Settled), BATCH_LIMIT);
  }

  lemma DepositsMoveReceiving(c: Config, job: Job, v: Vault, a: PassAnswers, coin: Coin)
    ensures var p, b, b' := job.PairOf(c), v.books.balance, DepositBooks(c, job, v.books, a.deposit).balance;
            var units := Units(c.processor, DepositBatch(v.books.rows, p, Init), Landings(a.deposit.init), coin);
            var out, out' := v.paidOut, Worked(c, job, v, a).paidOut;
            && Bal(b', ProcessingReceiving, coin) - Bal(b, ProcessingReceiving, coin)
               == units + Bal(out', ProcessingReceiving, coin) - Bal(out, ProcessingReceiving, coin)
            && forall m, e :: Bal(b', OwnKey(m, e), coin) - Bal(b, OwnKey(m, e), coin)
                              == Bal(out', OwnKey(m, e), coin) - Bal(out, OwnKey(m, e), coin)
  {
    var p, b, s := job.PairOf(c), v.books.balance, SettlementOf(c, job, v.books.rows, a.deposit);
    var batch := DepositBatch(v.books.rows, p, Init);
    var gathered, to, n := Gather(b, batch, a.deposit.init), job.PayeeOf(c), s.VisitedFrom(0);
    LandingsAreDeposits(v.books.rows, p);
    GatherArrives(c.processor, b, batch, a.deposit.init, coin);
    DisburseShifts(s, gathered, v.paidOut, to, n, ProcessingReceiving, coin);
    forall m, e
      ensures Bal(s.Disburse(gathered, to, n), OwnKey(m, e), coin) - Bal(gathered, OwnKey(m, e), coin)
           == Bal(s.Disburse(v.paidOut, to, n), OwnKey(m, e), coin) - Bal(v.paidOut, OwnKey(m, e), coin)
    {
      DisburseShifts(s, gathered, v.paidOut, to, n, OwnKey(m, e), coin);
    }
  }

  lemma WithdrawalsMoveReceiving(c: Config, job: Job, w: Books, a: PassAnswers, coin: Coin)
    ensures var b, b' := DepositBooks(c, job, w, a.deposit).balance, JobBooks(c, job, w, a).balance;
            && Bal(b', ProcessingReceiving, coin)
               == Bal(b, ProcessingReceiving, coin)
                  + Units(c.processor, Payouts(c, job, w, a), PaidBack(c.processor, a.pay), coin)
            && OwnKeysKept(b, b', coin)
  {
    var s, deposited := job.SettingOf(c), DepositBooks(c, job, w, a.deposit);
    CollectAllArrivesElsewhere(s, deposited, s.Batch(deposited.rows, Processed), a.collect, coin);
    PayoutsAreWithdrawals(c, job, w, a);
    PayAllArrives(s, CollectedBooks(c, job, w, a), Payouts(c, job, w, a), a.pay, coin);
  }

  lemma JobAddsArrivals(c: Config, job: Job, v: Vault, a: PassAnswers, coin: Coin)
    requires UniqueGuids(v.books.rows)
    ensures var w, p, v' := v.books, c.processor, Worked(c, job, v, a);
            Sum(v'.books.rows, ArrivedW(p, v'.arrived, coin))
            == Sum(w.rows, ArrivedW(p, v.arrived, coin))
               + Units(p, DepositBatch(w.rows, job.PairOf(c), Init), Landings(a.deposit.init), coin) as real
               + Units(p, Payouts(c, job, w, a), PaidBack(p, a.pay), coin) as real
  {
    var w, p := v.books, c.processor;
    var collected, landed := CollectedBooks(c, job, w, a), v.arrived + Landed(c, job, w, a);
    JobKeepsRows(c, job, w, a);
    LandingsAreDeposits(w.rows, job.PairOf(c));
    ArrivalsAdd(w.rows, p, v.arrived, DepositBatch(w.rows, job.PairOf(c), Init), Landings(a.deposit.init), coin);
    SumIgnoresStatus(w.rows, DepositBooks(c, job, w, a.deposit).rows, p, landed, coin);
    SumIgnoresStatus(DepositBooks(c, job, w, a.deposit).rows, collected.rows, p, landed, coin);
    PayoutsAreWithdrawals(c, job, w, a);
    ArrivalsAdd(collected.rows, p, landed, Payouts(c, job, w, a), PaidBack(p, a.pay), coin);
    SumIgnoresStatus(collected.rows, JobBooks(c, job, w, a).rows, p, Worked(c, job, v, a).arrived, coin);
  }

  lemma JobKeepsKnown(c: Config, job: Job, v: Vault, a: PassAnswers)
    requires RowsKnown(v)
    ensures RowsKnown(Worked(c, job, v, a))
  {
    var w, v' := v.books, Worked(c, job, v, a);
    JobKeepsRows(c, job, w, a);
    LandingsAreDeposits(w.rows, job.PairOf(c));
    PayoutsAreWithdrawals(c, job, w, a);
    ArrivalsAreOfTheBatch(DepositBatch(w.rows, job.PairOf(c), Init), Landings(a.deposit.init));
    ArrivalsAreOfTheBatch(Payouts(c, job, w, a), PaidBack(c.processor, a.pay));
    forall g | g in v'.arrived ensures HasGuid(v'.books.rows, g) {
      if g in v.arrived {
        assert HasGuid(w.rows, g);
      } else if g in Landed(c, job, w, a) {
        var t :| t in w.rows && t.guid == g;
        assert HasGuid(w.rows, g);
      } else {
        var t :| t in CollectedBooks(c, job, w, a).rows && t.guid == g;
        assert HasGuid(CollectedBooks(c, job, w, a).rows, g);
      }
    }
  }

  lemma WorkKeeps(c: Config, job: Job, start: Balances, v: Vault, a: PassAnswers)
    requires Balanced(c.processor, start, v)
    ensures Balanced(c.processor, start, Worked(c, job, v, a))
  {
    JobKeepsKnown(c, job, v, a);
    forall coin: Coin | coin.issuer != "" ensures Explained(c.processor, start, Worked(c, job, v, a), coin) {
      assert Explained(c.processor, start, v, coin);
      DepositsMoveReceiving(c, job, v, a, coin);
      WithdrawalsMoveReceiving(c, job, v.books, a, coin);
      JobAddsArrivals(c, job, v, a, coin);
    }
  }

  // Whole runs.

  /** The work on one wallet in a tick, or anything else: new rows, rewritten columns, and transfers that touch neither
      the processing receiving wallet nor a key that the service holds for a multi-signature wallet. */
  datatype Step = Work(c: Config, job: Job, a: PassAnswers) | Elsewhere(rows: seq<Tx>, balance: Balances)

  ghost predicate Extends(rows: seq<Tx>, rows': seq<Tx>) {
    |rows| <= |rows'| && UniqueGuids(rows') && SameRows(rows, rows'[..|rows|])
  }

  ghost predicate ElsewhereOnly(b: Balances, b': Balances) {
    forall c: Coin :: c.issuer != "" ==>
      Bal(b', ProcessingReceiving, c) == Bal(b, ProcessingReceiving, c) && OwnKeysKept(b, b', c)
  }

  ghost predicate Next(p: Processor, v: Vault, step: Step, v': Vault) {
    match step
    case Work(c, job, a) => c.processor == p && v' == Worked(c, job, v, a)
    case Elsewhere(rows, balance) =>
      && Extends(v.books.rows, rows) && ElsewhereOnly(v.books.balance, balance)
      && v' == v.(books := v.books.(rows := rows, balance := balance))
  }

  ghost predicate StepAt(p: Processor, states: seq<Vault>, steps: seq<Step>, i: nat)
    requires i < |steps| == |states| - 1
  {
    Next(p, states[i], steps[i], states[i + 1])
  }

  ghost predicate Run(p: Processor, states: seq<Vault>, steps: seq<Step>) {
    |states| == |steps| + 1 && forall i :: 0 <= i < |steps| ==> StepAt(p, states, steps, i)
  }

  /** A row that is new has not arrived. */
  lemma {:induction false} NewRowsHaveNotArrived(rows: seq<Tx>, rows': seq<Tx>, p: Processor, arrived: multiset<nat>,
                                                 c: Coin, n: nat)
    requires Extends(rows, rows') && |rows| <= n <= |rows'| && forall g :: g in arrived ==> HasGuid(rows, g)
    ensures Sum(rows'[..n], ArrivedW(p, arrived, c)) == Sum(rows'[..|rows|], ArrivedW(p, arrived, c))
  {
    if n > |rows| {
      NewRowsHaveNotArrived(rows, rows', p, arrived, c, n - 1);
      var t := rows'[n - 1];
      assert rows'[..n] == rows'[..n - 1] + [t];
      assert t.guid !in arrived by {
        forall k | 0 <= k < |rows| ensures rows[k].guid != t.guid {
          assert SameIdentity(rows[k], rows'[..|rows|][k]);
        }
      }
      OnceMore(Trunc(t.amount), 0);
      SumAppend(rows'[..n - 1], t, ArrivedW(p, arrived, c));
    }
  }

  lemma ElsewhereKeeps(p: Processor, start: Balances, v: Vault, rows: seq<Tx>, balance: Balances)
    requires Balanced(p, start, v) && Extends(v.books.rows, rows) && ElsewhereOnly(v.books.balance, balance)
    ensures Balanced(p, start, v.(books := v.books.(rows := rows, balance := balance)))
  {
    var n, v' := |v.books.rows|, v.(books := v.books.(rows := rows, balance := balance));
    forall g | g in v'.arrived ensures HasGuid(rows, g) {
      var i :| 0 <= i < n && v.books.rows[i].guid == g;
      assert SameIdentity(v.books.rows[i], rows[..n][i]) && rows[i].guid == g;
    }
    forall c: Coin | c.issuer != "" ensures Explained(p, start, v', c) {
      assert Explained(p, start, v, c);
      SumIgnoresStatus(v.books.rows, rows[..n], p, v.arrived, c);
      NewRowsHaveNotArrived(v.books.rows, rows, p, v.arrived, c, |rows|);
      assert rows[..|rows|] == rows;
    }
  }

  lemma NextKeeps(p: Processor, start: Balances, v: Vault, step: Step, v': Vault)
    requires Balanced(p, start, v) && Next(p, v, step, v')
    ensures Balanced(p, start, v')
  {
    match step
    case Work(c, job, a) => WorkKeeps(c, job, start, v, a);
    case Elsewhere(rows, balance) => ElsewhereKeeps(p, start, v, rows, balance);
  }

  lemma StepKeeps(p: Processor, start: Balances, states: seq<Vault>, steps: seq<Step>, i: nat)
    requires Run(p, states, steps) && i < |steps| && Balanced(p, start, states[i])
    ensures Balanced(p, start, states[i + 1])
  {
    assert StepAt(p, states, steps, i);
    NextKeeps(p, start, states[i], steps[i], states[i + 1]);
  }

  ghost predicate Initial(v: Vault) {
    v.books.rows == [] && v.arrived == multiset{} && v.paidOut == map[]
  }

  lemma InitialIsBalanced(p: Processor, v: Vault)
    requires Initial(v)
    ensures Balanced(p, v.books.balance, v)
  {
    forall c: Coin ensures Explained(p, v.books.balance, v, c) {
      assert Sum(v.books.rows, ArrivedW(p, v.arrived, c)) == 0.0;
    }
  }

  /** In every run the processing receiving wallet holds, of every issued coin, its start plus the units of the deposits
      that landed in it, as often as they did, and of payouts to its address, less the units disbursed in settlements;
      and a key that the service holds for a multi-signature wallet holds its start plus what was settled to it. */
  lemma {:induction false} EveryRunIsBalanced(p: Processor, states: seq<Vault>, steps: seq<Step>, n: nat)
    requires Run(p, states, steps) && n < |states| && Initial(states[0])
    ensures Balanced(p, states[0].books.balance, states[n])
  {
    if n == 0 {
      InitialIsBalanced(p, states[0]);
    } else {
      EveryRunIsBalanced(p, states, steps, n - 1);
      StepKeeps(p, states[0].books.balance, states, steps, n - 1);
    }
  }

  function VaultStep(c: Config, answers: Pair -> PassAnswers): (Vault, Job) -> Vault {
    (v: Vault, job: Job) => Worked(c, job, v, answers(job.PairOf(c)))
  }

  /** A whole tick of the service, for all outcomes, keeps that account. */
  lemma {:induction false} TickKeepsBalanced(c: Config, jobs: seq<Job>, start: Balances, v: Vault,
                                             answers: Pair -> PassAnswers)
    requires Balanced(c.processor, start, v)
    ensures var v' := Fold(jobs, v, VaultStep(c, answers));
            v'.books == Fold(jobs, v.books, JobStep(c, answers)) && Balanced(c.processor, start, v')
  {
    if jobs != [] {
      var init, job := jobs[..|jobs| - 1], jobs[|jobs| - 1];
      TickKeepsBalanced(c, init, start, v, answers);
      WorkKeeps(c, job, start, Fold(init, v, VaultStep(c, answers)), answers(job.PairOf(c)));
    }
  }

  // What happens elsewhere.

  lemma CallbackIsElsewhere(p: Processor, v: Vault, o: Observation)
    requires UniqueGuids(v.books.rows) && forall t :: t in v.books.rows ==> t.guid != o.guid
    ensures var rows := Observe(v.books.rows, o);
            Next(p, v, Elsewhere(rows, v.books.balance), v.(books := v.books.(rows := rows)))
  {
    assert forall i :: 0 <= i < |v.books.rows| ==> v.books.rows[i] in v.books.rows;
  }

  /** `TransferBetweenMerchantWallets`: from the address the receiving wallet is stored under to that of the sending
      wallet. */
  function Between(b: Balances, merchant: string, c: Coin, amount: real): Balances {
    Move(b, Wallet(merchant, merchant + "-R"), Wallet(merchant, merchant + "-S"), c, Trunc(amount))
  }

  lemma BetweenIsElsewhere(p: Processor, v: Vault, merchant: string, c: Coin, amount: real)
    requires UniqueGuids(v.books.rows)
    ensures var b, balance := v.books.balance, Between(v.books.balance, merchant, c, amount);
            var from, to := Wallet(merchant, merchant + "-R"), Wallet(merchant, merchant + "-S");
            && Bal(balance, from, c) == Bal(b, from, c) - Trunc(amount)
            && Bal(balance, to, c) == Bal(b, to, c) + Trunc(amount)
            && Next(p, v, Elsewhere(v.books.rows, balance), v.(books := v.books.(balance := balance)))
  {
    assert v.books.rows[..|v.books.rows|] == v.books.rows;
    assert (merchant + "-R")[|merchant| + 1] != (merchant + "-S")[|merchant| + 1];
  }

  // What is settled to a multi-signature wallet.

  /** A settlement that sends anything reaches the merchant's stored wallet if and only if that is no multi-signature
      wallet. */
  lemma SettlementReachesTheWalletIff(c: Config, job: Job, s: Settlement, b: Balances, n: nat, coin: Coin)
    requires n <= |s.batch| && SentUnits(s, n, coin) > 0
    ensures var wallet := Wallet(job.merchant, job.wallets.receivingID);
            Bal(s.Disburse(b, job.PayeeOf(c), n), wallet, coin) > Bal(b, wallet, coin)
            <==> (job.merchant, job.wallets.receivingID) !in c.shared
  {
    DisburseMovesSentUnits(s, b, job.PayeeOf(c), n, coin);
  }

  lemma {:induction false} DisburseAdds(s: Settlement, b: Balances, to: Account, n: nat, a: Account, c: Coin)
    requires n <= |s.batch| && to != ProcessingReceiving && a != ProcessingReceiving
    ensures Bal(s.Disburse(b, to, n), a, c) >= Bal(b, a, c)
  {
    if n > 0 {
      DisburseAdds(s, b, to, n - 1, a, c);
    }
  }

  lemma NextKeepsOwnKeys(p: Processor, v: Vault, step: Step, v': Vault, m: string, e: string, c: Coin)
    requires Next(p, v, step, v') && c.issuer != ""
    ensures Bal(v'.books.balance, OwnKey(m, e), c) >= Bal(v.books.balance, OwnKey(m, e), c)
  {
    if step.Work? {
      DepositsMoveReceiving(step.c, step.job, v, step.a, c);
      WithdrawalsMoveReceiving(step.c, step.job, v.books, step.a, c);
      var s := SettlementOf(step.c, step.job, v.books.rows, step.a.deposit);
      DisburseAdds(s, v.paidOut, step.job.PayeeOf(step.c), s.VisitedFrom(0), OwnKey(m, e), c);
    } else {
      assert OwnKeysKept(v.books.balance, step.balance, c);
    }
  }

  lemma StepKeepsOwnKeys(p: Processor, states: seq<Vault>, steps: seq<Step>, i: nat, m: string, e: string, c: Coin)
    requires Run(p, states, steps) && i < |steps| && c.issuer != ""
    ensures Bal(states[i + 1].books.balance, OwnKey(m, e), c) >= Bal(states[i].books.balance, OwnKey(m, e), c)
  {
    assert StepAt(p, states, steps, i);
    NextKeepsOwnKeys(p, states[i], steps[i], states[i + 1], m, e, c);
  }

  /** … and what went to the service's own key instead stays there: in no run does it ever hold less again. */
  lemma {:induction false} SettledToOwnKeyStays(p: Processor, states: seq<Vault>, steps: seq<Step>, n: nat, last: nat,
                                                m: string, e: string, c: Coin)
    requires Run(p, states, steps) && n <= last < |states| && c.issuer != ""
    ensures Bal(states[last].books.balance, OwnKey(m, e), c) >= Bal(states[n].books.balance, OwnKey(m, e), c)
  {
    if n < last {
      SettledToOwnKeyStays(p, states, steps, n, last - 1, m, e, c);
      StepKeepsOwnKeys(p, states, steps, last - 1, m, e, c);
    }
  }
}
