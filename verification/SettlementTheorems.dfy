/** What a settlement pass means for the rows and for the amount paid to the merchant. */
module SettlementTheorems {
  import opened Transactions
  import opened Ledger
  import opened Settlement

  /** The first index with a positive prefix sum: where the first transfer is attempted. */
  function FirstAttempt(s: Settlement, i: nat): (p: nat)
    requires i <= |s.batch|
    ensures i <= p <= |s.batch|
    ensures forall k :: i <= k < p ==> !s.Attempts(k)
    ensures p < |s.batch| ==> s.Attempts(p)
    decreases |s.batch| - i
  {
    if i == |s.batch| || s.Attempts(i) then i else FirstAttempt(s, i + 1)
  }

  /** The amounts asked for by the transfers at positions below `n` that moved funds. */
  function Sent(s: Settlement, n: nat): real
    requires n <= |s.batch|
  {
    if n == 0 then 0.0 else Sent(s, n - 1) + (if s.Pays(n - 1) then s.Running(n) else 0.0)
  }

  /** The units of one coin those transfers moved. */
  function SentUnits(s: Settlement, n: nat, c: Coin): int
    requires n <= |s.batch|
  {
    if n == 0 then 0
    else
      var paid := s.Pays(n - 1) && Coin(s.batch[n - 1].asset, s.batch[n - 1].issuer) == c;
      SentUnits(s, n - 1, c) + (if paid then Trunc(s.Running(n)) else 0)
  }

  function PositivePrefixes(s: Settlement, n: nat): real
    requires n <= |s.batch|
  {
    if n == 0 then 0.0 else PositivePrefixes(s, n - 1) + (if s.Running(n) > 0.0 then s.Running(n) else 0.0)
  }

  ghost predicate AllTransfersSucceed(s: Settlement) {
    forall i :: 0 <= i < |s.batch| && s.Attempts(i) ==> s.Settles(i)
  }

  /** With `k` the last index visited and `m` the last one whose inner loop ran, exactly the deposits in
      `(m, k]` are `processed` and all others are `settle` with the hash of transfer `m`; without any inner
      loop all stay `processed`.  Rows outside the batch are untouched. */
  lemma ExactFinalState(s: Settlement, rows: seq<Tx>, i: nat)
    requires UniqueGuids(s.batch) && i < |rows|
    ensures var k := s.VisitedFrom(0) - 1;
            var m := s.LastSettling(k + 1);
            var row' := s.Outcome(rows)[i];
            && ((forall j :: 0 <= j < |s.batch| ==> KeyOf(s.batch[j]) != KeyOf(rows[i])) ==> row' == rows[i])
            && forall j :: 0 <= j < |s.batch| && s.batch[j] == rows[i] && rows[i].status == Processed ==>
                 && (row'.status == Processed <==> m < 0 || m < j <= k)
                 && (row'.status == Settled <==> m >= 0 && !(m < j <= k))
                 && (if m >= 0 then s.answers.broadcast(m) == Some(row'.hash3) else row'.hash3 == rows[i].hash3)
                 && row'.commission == (if j <= k then s.terms.charge(rows[i].amount) else rows[i].commission)
                 && row' == rows[i].(status := row'.status, hash3 := row'.hash3, commission := row'.commission)
  {
    forall j | 0 <= j < |s.batch| && s.batch[j] == rows[i]
      ensures Position(s.batch, KeyOf(rows[i])) == j
    {
      s.PositionIsUnique(j);
    }
  }

  /** Where a pass ends: it goes on past a deposit whose running total is not positive, or reaches the minimum and has
      its transfer executed and its callback found, and stops after any other. */
  lemma WhereItStops(s: Settlement, i: nat)
    requires i < |s.batch|
    ensures var total, v := s.Running(i) + (s.batch[i].amount - s.terms.charge(s.batch[i].amount)), s.VisitedFrom(0);
            var settles := total > 0.0 && total >= s.terms.minimum
                           && s.answers.broadcast(i).Some? && s.answers.callback(i);
            && (i < v - 1 ==> total <= 0.0 || settles)
            && (i == v - 1 < |s.batch| - 1 ==> total > 0.0 && !settles)
            && (i == s.LastSettling(v) ==> settles)
            && (s.LastSettling(v) < i < v ==> !settles)
  {
    assert s.Running(i + 1) == s.Running(i) + s.terms.Net(s.batch[i]);
    assert s.Halts(i) <==> s.Attempts(i) && !s.Settles(i);
  }

  /** A pass settles something exactly when the first transfer it attempts reaches the minimum, is executed
      and finds the merchant's callback. */
  lemma SettlesSomethingIff(s: Settlement)
    ensures s.LastSettling(s.VisitedFrom(0)) >= 0
       <==> var p := FirstAttempt(s, 0);
            p < |s.batch| && s.Running(p + 1) >= s.terms.minimum
            && s.answers.broadcast(p).Some? && s.answers.callback(p)
  {
    var p, v := FirstAttempt(s, 0), s.VisitedFrom(0);
    var m := s.LastSettling(v);
    assert v < |s.batch| ==> s.Attempts(v - 1);
    assert m >= 0 ==> s.Attempts(m);
    assert p < v - 1 ==> !s.Halts(p);
  }

  /** When every attempted transfer succeeds, the pass sends the sum of the positive prefix sums. */
  lemma {:induction false} SentIsPositivePrefixes(s: Settlement, n: nat)
    requires AllTransfersSucceed(s) && n <= |s.batch|
    ensures s.VisitedFrom(0) == |s.batch|
    ensures Sent(s, n) == PositivePrefixes(s, n)
  {
    if n > 0 {
      SentIsPositivePrefixes(s, n - 1);
      assert s.Attempts(n - 1) <==> s.Running(n) > 0.0;
    }
  }

  ghost predicate NonePositive(s: Settlement, n: nat)
    requires n <= |s.batch|
  {
    forall k :: 0 < k <= n ==> s.Running(k) <= 0.0
  }

  lemma NonePositiveStep(s: Settlement, n: nat)
    requires 0 < n <= |s.batch|
    ensures NonePositive(s, n) <==> NonePositive(s, n - 1) && s.Running(n) <= 0.0
  {
    if NonePositive(s, n - 1) && s.Running(n) <= 0.0 {
      forall k | 0 < k <= n ensures s.Running(k) <= 0.0 {
        assert k == n || k <= n - 1;
      }
    }
  }

  lemma {:induction false} PrefixesAreNonNegative(s: Settlement, n: nat)
    requires n <= |s.batch|
    ensures PositivePrefixes(s, n) >= 0.0
    ensures PositivePrefixes(s, n) == 0.0 <==> NonePositive(s, n)
  {
    if n > 0 {
      PrefixesAreNonNegative(s, n - 1);
      NonePositiveStep(s, n);
    }
  }

  /** … which is the single grouped settlement of the net total exactly when no earlier prefix is positive. */
  lemma GroupedSettlementIff(s: Settlement)
    requires AllTransfersSucceed(s) && |s.batch| > 0 && s.Running(|s.batch|) > 0.0
    ensures Sent(s, |s.batch|) == s.Running(|s.batch|)
       <==> NonePositive(s, |s.batch| - 1)
  {
    var n := |s.batch|;
    SentIsPositivePrefixes(s, n);
    PrefixesAreNonNegative(s, n - 1);
    assert PositivePrefixes(s, n) == PositivePrefixes(s, n - 1) + s.Running(n);
  }

  /** So two deposits with positive net amounts, settled in one pass, pay the first one twice. */
  lemma TwoDepositsOverpay(s: Settlement)
    requires AllTransfersSucceed(s) && |s.batch| == 2
    requires s.terms.Net(s.batch[0]) > 0.0 && s.terms.Net(s.batch[1]) > 0.0
    ensures Sent(s, 2) == s.Running(2) + s.terms.Net(s.batch[0])
  {
    assert s.Running(1) == s.Running(0) + s.terms.Net(s.batch[0]);
    assert s.Running(2) == s.Running(1) + s.terms.Net(s.batch[1]);
    SentIsPositivePrefixes(s, 2);
    assert PositivePrefixes(s, 1) == PositivePrefixes(s, 0) + s.Running(1);
  }

  /** Two deposits of ten without commission, when nothing fails: twenty are due, thirty are sent. */
  lemma TwoTensSendThirty(s: Settlement)
    requires |s.batch| == 2 && s.batch[0].amount == s.batch[1].amount == 10.0
    requires s.terms.minimum == 1.0 && s.terms.charge(10.0) == 0.0
    requires forall i: nat :: s.answers.broadcast(i).Some? && s.answers.callback(i)
    ensures AllTransfersSucceed(s) && s.Running(2) == 20.0 && Sent(s, 2) == 30.0
  {
    EqualNets(s, 10.0);
    TwoDepositsOverpay(s);
  }

  lemma EqualNets(s: Settlement, net: real)
    requires |s.batch| == 2 && s.terms.Net(s.batch[0]) == s.terms.Net(s.batch[1]) == net
    requires net > 0.0 && net >= s.terms.minimum
    requires forall i: nat :: s.answers.broadcast(i).Some? && s.answers.callback(i)
    ensures AllTransfersSucceed(s) && s.Running(2) == net + net
  {
    assert s.Running(1) == s.Running(0) + net;
    assert s.Running(2) == s.Running(1) + net;
    forall i | 0 <= i < |s.batch| ensures s.Settles(i) {
      assert i == 0 || i == 1;
    }
  }

  /** The transfers leave the processing receiving wallet and arrive in the merchant's wallet, unit for unit. */
  lemma {:induction false} DisburseMovesSentUnits(s: Settlement, b: Balances, to: Account, n: nat, c: Coin)
    requires n <= |s.batch| && to != ProcessingReceiving
    ensures Bal(s.Disburse(b, to, n), ProcessingReceiving, c) == Bal(b, ProcessingReceiving, c) - SentUnits(s, n, c)
    ensures Bal(s.Disburse(b, to, n), to, c) == Bal(b, to, c) + SentUnits(s, n, c)
    ensures forall a :: a != to && a != ProcessingReceiving ==> Bal(s.Disburse(b, to, n), a, c) == Bal(b, a, c)
  {
    if n > 0 {
      DisburseMovesSentUnits(s, b, to, n - 1, c);
    }
  }

  /** A one-deposit settlement splits the amount into units sent, commission and a rounding rest below one. */
  lemma OneDepositSplit(s: Settlement, c: Coin)
    requires |s.batch| == 1 && s.Pays(0) && c == Coin(s.batch[0].asset, s.batch[0].issuer)
    ensures var rest := s.batch[0].amount - SentUnits(s, 1, c) as real - s.terms.Commission(s.batch[0]);
            0.0 <= rest < 1.0
  {
    assert s.Running(1) == s.Running(0) + s.terms.Net(s.batch[0]);
    assert SentUnits(s, 1, c) == SentUnits(s, 0, c) + Trunc(s.Running(1));
  }
}
