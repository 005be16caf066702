/** Commission and rounding. */
module Commissions {
  import opened Transactions
  import opened Ledger
  import opened Settlement
  import opened SettlementTheorems
  import opened Deposits
  import opened Withdrawals
  import Scheduler
  import Stall
  import StallConditions

  /** Settling one deposit under a merchant's receiving commission: a hundred times what is neither sent nor rounded
      away is a hundred times the fixed part and `percent` times the amount. */
  lemma DepositSplit(job: Scheduler.Job, c: Scheduler.Config, s: Settlement, coin: Coin) returns (rest: real)
    requires |s.batch| == 1 && s.Pays(0) && s.terms == job.TermsOf(c)
    requires coin == Coin(s.batch[0].asset, s.batch[0].issuer)
    ensures var amount, rule := s.batch[0].amount, job.wallets.receiving;
            && 0.0 <= rest < 1.0
            && 100.0 * (amount - SentUnits(s, 1, coin) as real - rest) == 100.0 * rule.fix + rule.percent * amount
  {
    OneDepositSplit(s, coin);
    rest := s.batch[0].amount - SentUnits(s, 1, coin) as real - s.terms.Commission(s.batch[0]);
    ChargeIsPercentage(job.wallets.receiving, s.batch[0].amount);
  }

  lemma ChargeIsPercentage(rule: Scheduler.Commission, amount: real)
    ensures 100.0 * rule.Charge(amount) == 100.0 * rule.fix + rule.percent * amount
  {
  }

  /** A commission below a hundred per cent leaves any net amount of some deposit. */
  lemma ChargeLeavesAnything(rule: Scheduler.Commission, minimum: real)
    requires rule.percent < 100.0
    ensures StallConditions.Unbounded(Terms(rule.Charge, minimum))
  {
    var terms := Terms(rule.Charge, minimum);
    forall net: real ensures StallConditions.CanNet(terms, net) {
      var amount := AmountNetting(rule, net);
      assert StallConditions.Leaves(terms, amount, net);
    }
  }

  lemma MoreTimes(x: real, y: real, factor: real)
    requires x <= y && factor > 0.0
    ensures x * factor <= y * factor
  {
  }

  lemma WholeShare(share: real, due: real) returns (amount: real)
    requires share > 0.0
    ensures amount > 0.0 && Whole(amount) && amount * share >= due
  {
    var exact := (if due > 0.0 then due else 1.0) / share;
    amount := (exact.Floor + 1) as real;
    MoreTimes(exact, amount, share);
  }

  lemma AmountNetting(rule: Scheduler.Commission, net: real) returns (amount: real)
    requires rule.percent < 100.0
    ensures amount > 0.0 && Whole(amount) && amount - rule.Charge(amount) >= net
  {
    amount := WholeShare(100.0 - rule.percent, 100.0 * (net + rule.fix));
    ChargeIsPercentage(rule, amount);
    assert amount * (100.0 - rule.percent) == 100.0 * amount - rule.percent * amount;
  }

  /** One of a hundred per cent or more leaves nothing, and nothing is ever settled. */
  lemma FullChargeStalls(rule: Scheduler.Commission, minimum: real, p: Pair)
    requires rule.percent >= 100.0 && rule.fix >= 0.0 && minimum > 0.0
    ensures Stall.StalledForever([], p, Terms(rule.Charge, minimum))
  {
    var terms := Terms(rule.Charge, minimum);
    forall amount ensures !StallConditions.Leaves(terms, amount, minimum) {
      ChargeIsPercentage(rule, amount);
      if amount > 0.0 {
        MoreTimes(100.0, rule.percent, amount);
      }
    }
    StallConditions.EmptyStallIff(p, terms);
  }

  /** With different receiving and sending ids nobody is exempt from the check; the stored commission exceeds the
      checked one by the percentage of the fixed part. */
  lemma StoredExceedsChecked(terms: SendingTerms, amount: real, external: string)
    requires terms.receivingID != terms.sendingID
    ensures terms.StoredCommission(amount) - terms.CheckedCommission(amount, external)
         == terms.fix * terms.percent / 100.0
  {
    var share := terms.percent / 100.0;
    assert amount * terms.percent / 100.0 == share * amount;
    assert terms.fix * terms.percent / 100.0 == share * terms.fix;
    assert share * (amount - terms.fix) == share * amount - share * terms.fix;
  }

  /** The balance check looks at the coin that is paid, except for an asset of the native denom's name that has an
      issuer. */
  lemma CheckedCoinIff(p: Processor, t: Tx)
    ensures p.CheckedCoin(t) == p.PaidCoin(t) <==> t.asset == "" || t.asset != p.native || t.issuer == ""
  {
  }

  /** After a successful collection the merchant's sending wallet still holds the checked commission. */
  lemma CollectionLeavesCommission(s: Setting, w: Books, t: Tx, a: CollectAnswer)
    requires s.Collects(w.balance, t, a) && t.amount >= 0.0
    ensures Bal(s.CollectRow(w, t, a).balance, s.SendingWallet(), s.processor.CheckedCoin(t)) as real
            >= s.terms.CheckedCommission(t.amount, t.external)
  {
    assert s.SendingWallet() != ProcessingSending;
    assert Trunc(t.amount) as real <= t.amount;
  }

  /** Withdrawals in one batch that the check protects: its coin is the paid one, and no commission is negative. */
  ghost predicate Covered(s: Setting, t: Tx) {
    && t.amount >= 0.0
    && s.processor.CheckedCoin(t) == s.processor.PaidCoin(t)
    && s.terms.CheckedCommission(t.amount, t.external) >= 0.0
  }

  lemma CollectionKeepsFunded(s: Setting, w: Books, t: Tx, a: CollectAnswer, c: Coin)
    requires Covered(s, t) && Bal(w.balance, s.SendingWallet(), c) >= 0
    ensures Bal(s.CollectRow(w, t, a).balance, s.SendingWallet(), c) >= 0
  {
    if s.Collects(w.balance, t, a) {
      CollectionLeavesCommission(s, w, t, a);
    }
  }

  /** However many withdrawals one phase collects, it never overdraws the merchant's sending wallet: every check sees
      what the collections before it have left. */
  lemma {:induction false} CollectionsNeverOverdraw(s: Setting, w: Books, batch: seq<Tx>, answers: nat -> CollectAnswer,
                                                   c: Coin)
    requires forall t :: t in batch ==> Covered(s, t)
    requires Bal(w.balance, s.SendingWallet(), c) >= 0
    ensures Bal(s.CollectAll(w, batch, answers).balance, s.SendingWallet(), c) >= 0
  {
    if batch != [] {
      var n := |batch| - 1;
      assert batch == batch[..n] + [batch[n]];
      CollectionsNeverOverdraw(s, w, batch[..n], answers, c);
      CollectionKeepsFunded(s, s.CollectAll(w, batch[..n], answers), batch[n], answers(batch[n].guid), c);
    }
  }

  /** Where the check looks at another coin, it protects nothing: a balance that passes it may hold none of the coin
      that is paid. */
  lemma UncheckedCoinCanBeMissing(s: Setting, t: Tx) returns (b: Balances)
    requires s.processor.CheckedCoin(t) != s.processor.PaidCoin(t)
    ensures s.Fundable(b, t) && Bal(b, s.SendingWallet(), s.processor.PaidCoin(t)) == 0
  {
    var need := t.amount + s.terms.CheckedCommission(t.amount, t.external);
    b := map[(s.SendingWallet(), s.processor.CheckedCoin(t)) := need.Floor + 1];
  }
}
