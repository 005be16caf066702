/** What the work on one wallet does to single rows and accounts, told in the columns of the table and the fields of the
    merchant's record. */
module Effects {
  import opened Transactions
  import opened Ledger
  import opened Settlement
  import opened SettlementTheorems
  import opened Deposits
  import opened Withdrawals
  import opened Passes
  import opened Scheduler
  import opened TickTheorems
  import R = ReceivingLedger
  import TickAccounts
  import WithdrawLedger

  /** Row `i` is among the thousand oldest of the pair with this action and status. */
  predicate Oldest(rows: seq<Tx>, p: Pair, action: Action, status: Status, i: nat)
    requires i < |rows|
  {
    var t := rows[i];
    && t.merchant == p.merchant && t.blockchain == p.blockchain && t.action == action && t.status == status
    && CountBefore(rows, Query(p.merchant, p.blockchain, action, status), i) < 1000
  }

  // Deposits.

  /** An `init` deposit gets the hash of its transfer, or is processed when that succeeded, or loses the hash when it
      failed; nothing if the row cannot be written. */
  lemma InitiatedRow(rows: seq<Tx>, p: Pair, answers: nat -> InitAnswer, i: nat)
    requires UniqueGuids(rows) && i < |rows|
    ensures var t, a := rows[i], answers(rows[i].guid);
            InitPhase(rows, p, answers)[i]
            == if !Oldest(rows, p, Deposit, Init, i) || !a.stored then t
               else if t.hash2 == "" then if a.transfer.Some? then t.(hash2 := a.transfer.value) else t
               else if a.status == Successful then t.(status := Processed, commission := 0.0)
               else if a.status == Failed then t.(hash2 := "")
               else t
  {
    PhaseIsExact(rows, Query(p.merchant, p.blockchain, Deposit, Init), InitEdits(answers), i);
    EditedAllOne(rows[i], InitEdit(rows[i], answers(rows[i].guid)));
  }

  /** The transfer for an `init` deposit: it is made if there is no hash yet, is executed if it lands, and brings the
      truncated amount from the user's wallet to the processing receiving wallet. */
  lemma GatheringMoves(b: Balances, batch: seq<Tx>, answers: nat -> InitAnswer, i: nat, a: Account, c: Coin)
    requires i < |batch|
    ensures var t, answer := batch[i], answers(batch[i].guid);
            var made := t.hash2 == "" && answer.transfer.Some? && answer.landed && c == Coin(t.asset, t.issuer);
            Bal(Gather(b, batch[..i + 1], answers), a, c) - Bal(Gather(b, batch[..i], answers), a, c)
            == if !made then 0
               else if a == ProcessingReceiving then Trunc(t.amount)
               else if a == Wallet(t.merchant, t.external) then -Trunc(t.amount) else 0
  {
    GatherStep(b, batch, i, answers);
  }

  /** A settled deposit with a hash is done when its transfer succeeded, and loses the hash when it failed. */
  lemma ConfirmedRow(rows: seq<Tx>, p: Pair, answers: nat -> DoneAnswer, i: nat)
    requires UniqueGuids(rows) && i < |rows|
    ensures var t, a := rows[i], answers(rows[i].guid);
            DonePhase(rows, p, answers)[i]
            == if !Oldest(rows, p, Deposit, Settled, i) || !a.stored || t.hash3 == "" then t
               else if a.status == Successful then t.(status := Done, hash5 := "")
               else if a.status == Failed then t.(hash3 := "")
               else t
  {
    PhaseIsExact(rows, Query(p.merchant, p.blockchain, Deposit, Settled), DoneEdits(answers), i);
    EditedAllOne(rows[i], DoneEdit(rows[i], answers(rows[i].guid)));
  }

  /** The settlement of a table: the `j`-th oldest processed deposit ends as the exact final state says, and every other
      row stays. */
  lemma SettledRow(rows: seq<Tx>, p: Pair, terms: Terms, answers: Answers, i: nat)
    requires UniqueGuids(rows) && i < |rows|
    ensures var s := Settlement(DepositBatch(rows, p, Processed), terms, answers);
            var k, j := s.VisitedFrom(0) - 1, CountBefore(rows, Query(p.merchant, p.blockchain, Deposit, Processed), i);
            var m := s.LastSettling(k + 1);
            var t, row' := rows[i], SettlePhase(rows, p, terms, answers)[i];
            if !Oldest(rows, p, Deposit, Processed, i) then row' == t
            else
              && (row'.status == if m >= 0 && !(m < j <= k) then Settled else Processed)
              && (if m >= 0 then answers.broadcast(m) == Some(row'.hash3) else row'.hash3 == t.hash3)
              && row' == t.(status := row'.status, hash3 := row'.hash3,
                            commission := if j <= k then terms.charge(t.amount) else t.commission)
  {
    var q := Query(p.merchant, p.blockchain, Deposit, Processed);
    var s := Settlement(DepositBatch(rows, p, Processed), terms, answers);
    FetchHasUniqueGuids(rows, q, BATCH_LIMIT);
    ExactFinalState(s, rows, i);
    if Oldest(rows, p, Deposit, Processed, i) {
      FetchedInOrder(rows, q, BATCH_LIMIT, i);
      assert s.batch[CountBefore(rows, q, i)] == rows[i];
    } else {
      forall j | 0 <= j < |s.batch| ensures KeyOf(s.batch[j]) != KeyOf(rows[i]) {
        if KeyOf(s.batch[j]) == KeyOf(rows[i]) {
          FetchedCopyIsTheRow(rows, q, BATCH_LIMIT, i, j);
          FetchedHasFewOlder(rows, q, BATCH_LIMIT, i, j);
        }
      }
    }
  }

  /** The transfer at position `i`: it is made if the running total is positive, reaches the minimum and is executed,
      and moves its truncation, in the coin of the deposit at `i`. */
  lemma TransferAt(s: Settlement, b: Balances, to: Account, i: nat, a: Account, c: Coin)
    requires i < |s.batch| && to != ProcessingReceiving
    ensures var total, coin := s.Running(i) + (s.batch[i].amount - s.terms.charge(s.batch[i].amount)),
                               Coin(s.batch[i].asset, s.batch[i].issuer);
            var made := total > 0.0 && total >= s.terms.minimum && s.answers.broadcast(i).Some? && c == coin;
            Bal(s.Disburse(b, to, i + 1), a, c) - Bal(s.Disburse(b, to, i), a, c)
            == if !made then 0
               else if a == to then Trunc(total) else if a == ProcessingReceiving then -Trunc(total) else 0
  {
    assert s.Running(i + 1) == s.Running(i) + s.terms.Net(s.batch[i]);
  }

  /** The settlement of a wallet is under the merchant's receiving rule and the processor's minimum, and pays the wallet
      address of the merchant's receiving wallet. */
  lemma JobSettles(c: Config, job: Job, w: Books, a: DepositAnswers, amount: real)
    ensures var s, rule, id := R.SettlementOf(c, job, w.rows, a), job.wallets.receiving, job.wallets.receivingID;
            && s.batch == Fetch(InitPhase(w.rows, Pair(job.merchant, c.blockchain), a.init),
                                Query(job.merchant, c.blockchain, Deposit, Processed), 1000)
            && s.terms.minimum == c.minimum && s.answers == a.settle
            && 100.0 * s.terms.charge(amount) == 100.0 * rule.fix + rule.percent * amount
            && DepositBooks(c, job, w, a).balance
               == s.Disburse(Gather(w.balance,
                                    Fetch(w.rows, Query(job.merchant, c.blockchain, Deposit, Init), 1000), a.init),
                             if (job.merchant, id) in c.shared then OwnKey(job.merchant, id)
                             else Wallet(job.merchant, id),
                             s.VisitedFrom(0))
  {
  }

  // Withdrawals: one iteration of each loop.

  /** The coin that a withdrawal is paid in: the native one if it names no asset. */
  function CoinPaid(native: string, t: Tx): Coin {
    if t.asset == "" then Coin(native, "") else Coin(t.asset, t.issuer)
  }

  /** The coin whose balance is checked for it. */
  function CoinChecked(native: string, t: Tx): Coin {
    if t.asset == "" || t.asset == native then Coin(native, "") else Coin(t.asset, t.issuer)
  }

  /** The merchant's sending wallet holds the amount and the commission that is checked: the fixed part, and the
      percentage of what exceeds it. */
  predicate Enough(c: Config, job: Job, b: Balances, t: Tx) {
    var rule := job.wallets.sending;
    Bal(b, Wallet(job.merchant, job.wallets.sendingID), CoinChecked(c.processor.native, t)) as real
    >= t.amount + rule.fix + rule.percent / 100.0 * (t.amount - rule.fix)
  }

  predicate Collected(c: Config, job: Job, b: Balances, t: Tx, a: CollectAnswer) {
    a.reachable && a.broadcast.Some? && Enough(c, job, b, t)
  }

  lemma CollectsIsCollected(c: Config, job: Job, b: Balances, t: Tx, a: CollectAnswer)
    requires job.wallets.receivingID != job.wallets.sendingID
    ensures job.SettingOf(c).Collects(b, t, a) <==> Collected(c, job, b, t, a)
  {
    var rule := job.wallets.sending;
    assert job.SettingOf(c).terms.CheckedCommission(t.amount, t.external)
        == rule.fix + rule.percent / 100.0 * (t.amount - rule.fix);
  }

  lemma StoredIsOfTheSendingRule(c: Config, job: Job, amount: real)
    ensures var rule := job.wallets.sending;
            100.0 * job.SettingOf(c).terms.StoredCommission(amount) == 100.0 * rule.fix + rule.percent * amount
  {
  }

  /** A withdrawal is collected exactly when the merchant's sending wallet holds enough and the chain executes the
      transfer, which moves the truncated amount to the processing sending wallet. */
  lemma CollectionMoves(c: Config, job: Job, w: Books, t: Tx, a: CollectAnswer)
    requires job.wallets.receivingID != job.wallets.sendingID
    ensures var w', made := job.SettingOf(c).CollectRow(w, t, a), Collected(c, job, w.balance, t, a);
            var units, coin := if made then Trunc(t.amount) else 0, CoinPaid(c.processor.native, t);
            var from := Wallet(job.merchant, job.wallets.sendingID);
            && w'.collected == (if made then w.collected + multiset{t.guid} else w.collected)
            && Bal(w'.balance, from, coin) == Bal(w.balance, from, coin) - units
            && Bal(w'.balance, ProcessingSending, coin) == Bal(w.balance, ProcessingSending, coin) + units
            && forall account, d :: d != coin || (account != ProcessingSending && account != from) ==>
                 Bal(w'.balance, account, d) == Bal(w.balance, account, d)
  {
    CollectsIsCollected(c, job, w.balance, t, a);
  }

  /** The row gets the first hash again and the commission of the merchant's sending rule, if that can be written; and
      becomes settled with the hash of the transfer, if that was made and can be written. */
  predicate CollectedAs(c: Config, job: Job, b: Balances, t: Tx, a: CollectAnswer, row': Tx) {
    var rule, made := job.wallets.sending, Collected(c, job, b, t, a) && a.stored;
    && 100.0 * row'.commission == (if a.reput then 100.0 * rule.fix + rule.percent * t.amount else 100.0 * t.commission)
    && row' == t.(hash2 := if a.reput then t.hash1 else t.hash2, commission := row'.commission,
                  status := if made then Settled else Processed,
                  hash3 := if made then a.broadcast.value else t.hash3)
  }

  lemma CollectRowAt(s: Setting, w: Books, t: Tx, a: CollectAnswer, i: nat)
    requires i < |w.rows| && w.rows[i] == t && t.status == Processed
    ensures var made := s.Collects(w.balance, t, a) && a.stored;
            s.CollectRow(w, t, a).rows[i]
            == t.(hash2 := if a.reput then t.hash1 else t.hash2,
                  commission := if a.reput then s.terms.StoredCommission(t.amount) else t.commission,
                  status := if made then Settled else Processed,
                  hash3 := if made then a.broadcast.value else t.hash3)
  {
  }

  lemma WrittenIsCollected(c: Config, job: Job, b: Balances, t: Tx, a: CollectAnswer, row': Tx)
    requires t.status == Processed
    requires var made := Collected(c, job, b, t, a) && a.stored;
             row' == t.(hash2 := if a.reput then t.hash1 else t.hash2,
                        commission := if a.reput then job.SettingOf(c).terms.StoredCommission(t.amount)
                                      else t.commission,
                        status := if made then Settled else Processed,
                        hash3 := if made then a.broadcast.value else t.hash3)
    ensures CollectedAs(c, job, b, t, a, row')
  {
    StoredIsOfTheSendingRule(c, job, t.amount);
  }

  lemma CollectionWrites(c: Config, job: Job, w: Books, t: Tx, a: CollectAnswer, i: nat)
    requires job.wallets.receivingID != job.wallets.sendingID
    requires i < |w.rows| && w.rows[i] == t && t.status == Processed
    ensures CollectedAs(c, job, w.balance, t, a, job.SettingOf(c).CollectRow(w, t, a).rows[i])
  {
    CollectRowAt(job.SettingOf(c), w, t, a, i);
    CollectsIsCollected(c, job, w.balance, t, a);
    WrittenIsCollected(c, job, w.balance, t, a, job.SettingOf(c).CollectRow(w, t, a).rows[i]);
  }

  /** A payout that the chain executes moves the truncated amount from the processing sending wallet to the address
      that the withdrawal names, and changes no other account. */
  lemma PayoutMoves(s: Setting, w: Books, t: Tx, a: PayAnswer)
    ensures var w', p, address := s.PayRow(w, t, a), s.processor, t.extWallet;
            var to := if address == p.sendingAddress then ProcessingSending
                      else if address == p.receivingAddress then ProcessingReceiving
                      else Outside(address);
            var units, coin := if a.broadcast.Some? then Trunc(t.amount) else 0, CoinPaid(p.native, t);
            && w'.paid == (if a.broadcast.Some? then w.paid + multiset{t.guid} else w.paid)
            && (to == ProcessingSending ==>
                  forall account, d :: Bal(w'.balance, account, d) == Bal(w.balance, account, d))
            && (to != ProcessingSending ==>
                  && Bal(w'.balance, to, coin) == Bal(w.balance, to, coin) + units
                  && Bal(w'.balance, ProcessingSending, coin) == Bal(w.balance, ProcessingSending, coin) - units)
            && forall account, d :: d != coin || (account != ProcessingSending && account != to) ==>
                 Bal(w'.balance, account, d) == Bal(w.balance, account, d)
  {
  }

  /** Its row becomes done with the hash of the transfer, if that can be written. */
  lemma PayoutWrites(s: Setting, w: Books, t: Tx, a: PayAnswer, i: nat)
    requires i < |w.rows| && w.rows[i] == t
    ensures s.PayRow(w, t, a).rows[i]
         == if a.broadcast.Some? && a.stored then t.(status := Done, hash5 := a.broadcast.value) else t
  {
  }

  // Withdrawals: the whole share of a tick.

  /** The deposit phases leave a withdrawal where and as it is in its queue. */
  lemma DepositsKeepQueue(c: Config, job: Job, w: Books, a: DepositAnswers, status: Status, i: nat)
    requires UniqueGuids(w.rows) && i < |w.rows| && w.rows[i].action == Withdraw
    ensures var rows' := DepositBooks(c, job, w, a).rows;
            && |rows'| == |w.rows| && UniqueGuids(rows') && rows'[i] == w.rows[i]
            && var q := Query(job.merchant, c.blockchain, Withdraw, status);
               CountBefore(rows', q, i) == CountBefore(w.rows, q, i)
  {
    var rows' := DepositBooks(c, job, w, a).rows;
    DepositsKeepGuids(w.rows, job.PairOf(c), job.TermsOf(c), a);
    TickAccounts.DepositPassIsElsewhere(w.rows, job.PairOf(c), job.TermsOf(c), a);
    var q := Query(job.merchant, c.blockchain, Withdraw, status);
    forall k | 0 <= k < i ensures Matches(w.rows[k], q) == Matches(rows'[k], q) {
      assert w.rows[k].action == rows'[k].action;
    }
    CountAgrees(w.rows, rows', q, i);
  }

  /** A collection leaves every other row alone. */
  lemma OthersTurn(s: Setting, w: Books, t: Tx, a: CollectAnswer, i: nat)
    requires i < |w.rows|
    ensures var rows' := s.CollectRow(w, t, a).rows;
            && |rows'| == |w.rows| && rows'[i].guid == w.rows[i].guid
            && (w.rows[i].guid != t.guid ==> rows'[i] == w.rows[i])
  {
  }

  lemma {:induction false} TurnsKeepGuids(s: Setting, w: Books, batch: seq<Tx>, answers: nat -> CollectAnswer, i: nat)
    requires i < |w.rows|
    ensures var rows' := s.CollectAll(w, batch, answers).rows; |rows'| == |w.rows| && rows'[i].guid == w.rows[i].guid
  {
    if batch != [] {
      var rest, t := batch[..|batch| - 1], batch[|batch| - 1];
      TurnsKeepGuids(s, w, rest, answers, i);
      OthersTurn(s, s.CollectAll(w, rest, answers), t, answers(t.guid), i);
    }
  }

  lemma {:induction false} OthersTurns(s: Setting, w: Books, batch: seq<Tx>, answers: nat -> CollectAnswer, j: nat,
                                       n: nat, i: nat)
    requires j <= n <= |batch| && i < |w.rows| && forall k :: j <= k < n ==> batch[k].guid != w.rows[i].guid
    ensures var before, after := s.CollectAll(w, batch[..j], answers).rows, s.CollectAll(w, batch[..n], answers).rows;
            |before| == |after| == |w.rows| && after[i] == before[i]
    decreases n
  {
    TurnsKeepGuids(s, w, batch[..j], answers, i);
    if j < n {
      OthersTurns(s, w, batch, answers, j, n - 1, i);
      TurnsKeepGuids(s, w, batch[..n - 1], answers, i);
      s.CollectAllStep(w, batch, n - 1, answers);
      OthersTurn(s, s.CollectAll(w, batch[..n - 1], answers), batch[n - 1], answers(batch[n - 1].guid), i);
    }
  }

  /** What its own turn makes of a row of the batch is what the whole phase makes of it. */
  lemma OwnTurn(s: Setting, w: Books, batch: seq<Tx>, answers: nat -> CollectAnswer, j: nat, i: nat)
    requires UniqueGuids(batch) && j < |batch| && i < |w.rows| && w.rows[i] == batch[j]
    ensures var before := s.CollectAll(w, batch[..j], answers);
            && |before.rows| == |w.rows| && before.rows[i] == w.rows[i]
            && |s.CollectAll(w, batch, answers).rows| == |s.CollectRow(before, batch[j], answers(batch[j].guid)).rows|
               == |w.rows|
            && s.CollectAll(w, batch, answers).rows[i]
               == s.CollectRow(before, batch[j], answers(batch[j].guid)).rows[i]
  {
    OthersTurns(s, w, batch, answers, 0, j, i);
    OthersTurns(s, w, batch, answers, j + 1, |batch|, i);
    s.CollectAllStep(w, batch, j, answers);
    assert batch[..|batch|] == batch && batch[..0] == [];
  }

  /** The books when the turn of the `j`-th of the thousand oldest processed withdrawals comes. */
  function AtTurn(c: Config, job: Job, w: Books, answers: nat -> CollectAnswer, j: nat): Books {
    var batch := Fetch(w.rows, Query(job.merchant, c.blockchain, Withdraw, Processed), 1000);
    job.SettingOf(c).CollectAll(w, if j <= |batch| then batch[..j] else batch, answers)
  }

  lemma TurnComes(c: Config, job: Job, w: Books, answers: nat -> CollectAnswer, i: nat)
    requires UniqueGuids(w.rows) && i < |w.rows| && job.wallets.receivingID != job.wallets.sendingID
    requires Oldest(w.rows, Pair(job.merchant, c.blockchain), Withdraw, Processed, i)
    ensures var q, s := Query(job.merchant, c.blockchain, Withdraw, Processed), job.SettingOf(c);
            var before := AtTurn(c, job, w, answers, CountBefore(w.rows, q, i));
            var rows' := s.CollectAll(w, s.Batch(w.rows, Processed), answers).rows;
            |rows'| == |w.rows| && CollectedAs(c, job, before.balance, w.rows[i], answers(w.rows[i].guid), rows'[i])
  {
    var q, s, t := Query(job.merchant, c.blockchain, Withdraw, Processed), job.SettingOf(c), w.rows[i];
    var batch, j := s.Batch(w.rows, Processed), CountBefore(w.rows, q, i);
    FetchedInOrder(w.rows, q, 1000, i);
    FetchHasUniqueGuids(w.rows, q, 1000);
    OwnTurn(s, w, batch, answers, j, i);
    CollectionWrites(c, job, AtTurn(c, job, w, answers, j), t, answers(t.guid), i);
  }

  /** In the collections of a tick every one of the thousand oldest processed withdrawals has its turn. */
  lemma JobCollects(c: Config, job: Job, w: Books, a: PassAnswers, i: nat)
    requires UniqueGuids(w.rows) && i < |w.rows| && job.wallets.receivingID != job.wallets.sendingID
    requires Oldest(w.rows, Pair(job.merchant, c.blockchain), Withdraw, Processed, i)
    ensures var after := R.CollectedBooks(c, job, w, a).rows;
            var j := CountBefore(w.rows, Query(job.merchant, c.blockchain, Withdraw, Processed), i);
            var before := AtTurn(c, job, DepositBooks(c, job, w, a.deposit), a.collect, j);
            && |after| == |w.rows|
            && CollectedAs(c, job, before.balance, w.rows[i], a.collect(w.rows[i].guid), after[i])
  {
    DepositsKeepQueue(c, job, w, a.deposit, Processed, i);
    TurnComes(c, job, DepositBooks(c, job, w, a.deposit), a.collect, i);
  }

  /** No older withdrawal of the batch has been paid without being written. */
  ghost predicate NotStopped(rows: seq<Tx>, p: Pair, answers: nat -> PayAnswer, i: nat)
    requires i < |rows|
  {
    forall r :: 0 <= r < i && Oldest(rows, p, Withdraw, Settled, r) ==>
      answers(rows[r].guid).broadcast.None? || answers(rows[r].guid).stored
  }

  lemma {:induction false} VisitedIff(batch: seq<Tx>, answers: nat -> PayAnswer, i: nat, j: nat)
    requires i <= j < |batch|
    ensures j < PayVisited(batch, answers, i) <==> forall k :: i <= k < j ==> !PayHalts(batch[k], answers)
    decreases |batch| - i
  {
    if i < j && !PayHalts(batch[i], answers) {
      VisitedIff(batch, answers, i + 1, j);
    }
  }

  /** The loop reaches a withdrawal exactly if no older one has stopped it. */
  lemma ReachedIff(rows: seq<Tx>, p: Pair, answers: nat -> PayAnswer, i: nat)
    requires UniqueGuids(rows) && i < |rows| && Oldest(rows, p, Withdraw, Settled, i)
    ensures var q := Query(p.merchant, p.blockchain, Withdraw, Settled);
            var batch, j := Fetch(rows, q, 1000), CountBefore(rows, q, i);
            && j < |batch| && batch[j] == rows[i]
            && (j < PayVisited(batch, answers, 0) <==> NotStopped(rows, p, answers, i))
  {
    var q := Query(p.merchant, p.blockchain, Withdraw, Settled);
    var batch, j := Fetch(rows, q, 1000), CountBefore(rows, q, i);
    FetchedInOrder(rows, q, 1000, i);
    VisitedIff(batch, answers, 0, j);
    if NotStopped(rows, p, answers, i) {
      FetchMembers(rows, q, 1000);
      forall k | 0 <= k < j ensures !PayHalts(batch[k], answers) {
        var r := IndexOf(rows, batch[k]);
        FetchedHasFewOlder(rows, q, 1000, r, k);
        if r > i {
          CountGrows(rows, q, i, r);
        }
        assert Oldest(rows, p, Withdraw, Settled, r);
      }
    } else {
      var r :| 0 <= r < i && Oldest(rows, p, Withdraw, Settled, r)
               && answers(rows[r].guid).broadcast.Some? && !answers(rows[r].guid).stored;
      CountGrows(rows, q, r, i);
      FetchedInOrder(rows, q, 1000, r);
      assert PayHalts(batch[CountBefore(rows, q, r)], answers);
    }
  }

  lemma StoppedRow(rows: seq<Tx>, p: Pair, answers: nat -> PayAnswer, i: nat)
    requires UniqueGuids(rows) && i < |rows|
    ensures var t, a, rows' := rows[i], answers(rows[i].guid), PayPhase(rows, p, answers);
            && |rows'| == |rows|
            && rows'[i] == if Oldest(rows, p, Withdraw, Settled, i) && a.broadcast.Some? && a.stored
                           then t.(status := Done, hash5 := a.broadcast.value) else t
  {
    PhaseIsExact(rows, WithdrawQuery(p, Settled), PayEdits(answers), i);
    EditedAllOne(rows[i], PayEdit(answers(rows[i].guid)));
  }

  /** The payouts of a phase: each of the thousand oldest settled withdrawals that the loop reaches is done, with the
      hash of its payout, if that is executed and can be written; no other row changes. */
  lemma PaidRow(c: Config, job: Job, w: Books, answers: nat -> PayAnswer, i: nat)
    requires UniqueGuids(w.rows) && i < |w.rows|
    ensures var p, t, a := Pair(job.merchant, c.blockchain), w.rows[i], answers(w.rows[i].guid);
            var batch := job.SettingOf(c).Batch(w.rows, Settled);
            var rows' := job.SettingOf(c).PayAll(w, batch[..PayVisited(batch, answers, 0)], answers).rows;
            && |rows'| == |w.rows|
            && rows'[i] == if Oldest(w.rows, p, Withdraw, Settled, i) && NotStopped(w.rows, p, answers, i)
                              && a.broadcast.Some? && a.stored
                           then t.(status := Done, hash5 := a.broadcast.value) else t
  {
    var p, s, t, a := Pair(job.merchant, c.blockchain), job.SettingOf(c), w.rows[i], answers(w.rows[i].guid);
    var q, batch := WithdrawQuery(p, Settled), s.Batch(w.rows, Settled);
    var v := PayVisited(batch, answers, 0);
    FetchHasUniqueGuids(w.rows, q, BATCH_LIMIT);
    StoppedPayoutsArePuts(w, s, batch, v, answers);
    var stopped := StoppedAnswers(batch, v, answers);
    StoppedRow(w.rows, p, stopped, i);
    if Oldest(w.rows, p, Withdraw, Settled, i) {
      ReachedIff(w.rows, p, answers, i);
      StoppedAt(batch, v, answers, CountBefore(w.rows, q, i));
    }
  }

  lemma StoppedAt(batch: seq<Tx>, v: nat, answers: nat -> PayAnswer, j: nat)
    requires UniqueGuids(batch) && v <= |batch| && j < |batch|
    ensures StoppedAnswers(batch, v, answers)(batch[j].guid)
         == if j < v then answers(batch[j].guid) else PayAnswer(None, false)
  {
    if j >= v {
      forall k | 0 <= k < v ensures batch[k].guid != batch[j].guid {
      }
    }
  }

  /** The whole share of a tick: the collections on what the deposit phases leave, and then the payouts on that. */
  lemma JobPays(c: Config, job: Job, w: Books, a: PassAnswers, i: nat)
    requires UniqueGuids(w.rows) && i < |w.rows|
    ensures var p, collected := Pair(job.merchant, c.blockchain), R.CollectedBooks(c, job, w, a).rows;
            && |JobBooks(c, job, w, a).rows| == |collected| == |w.rows|
            && JobBooks(c, job, w, a).rows[i]
               == if Oldest(collected, p, Withdraw, Settled, i) && NotStopped(collected, p, a.pay, i)
                     && a.pay(w.rows[i].guid).broadcast.Some? && a.pay(w.rows[i].guid).stored
                  then collected[i].(status := Done, hash5 := a.pay(w.rows[i].guid).broadcast.value)
                  else collected[i]
  {
    R.JobKeepsRows(c, job, w, a);
    var deposited, collected := DepositBooks(c, job, w, a.deposit), R.CollectedBooks(c, job, w, a);
    assert SameIdentity(w.rows[i], deposited.rows[i]) && SameIdentity(deposited.rows[i], collected.rows[i]);
    PaidRow(c, job, collected, a.pay, i);
  }
}
