/** Runs of the service as far as the deposits of one merchant and blockchain are concerned. */
module Runs {
  import opened Transactions
  import opened Ledger
  import opened Settlement
  import opened Deposits
  import opened Withdrawals
  import opened Passes
  import opened Lifecycle
  import opened Isolation

  predicate Mine(t: Tx, p: Pair) {
    InPair(t, p) && t.action == Deposit
  }

  function QueryOf(p: Pair, status: Status): Query {
    Query(p.merchant, p.blockchain, Deposit, status)
  }

  predicate PaidOut(t: Tx) {
    t.status == Settled || t.status == Done
  }

  /** An API call that addresses no deposit. */
  ghost predicate OnWithdrawals(rows: seq<Tx>, key: Key) {
    forall t :: t in rows && KeyOf(t) == key ==> t.action == Withdraw
  }

  /** A row as INSERT leaves it. Deposits are inserted for a positive amount only, which is a whole one, because the
      chain's balances are. */
  predicate IsNew(t: Tx) {
    && t.status == Init && t.hash2 == t.hash3 == t.hash5 == ""
    && (t.action == Deposit ==> t.amount > 0.0 && Whole(t.amount))
  }

  /** One scheduler pass of any pair, a new row from a callback or the API, or an API call on a withdrawal. A
      tick is one pass for each wallet (see `TickTheorems`). */
  datatype Step = TickPass(pass: Pass) | NewRow(t: Tx) | WithdrawApi(key: Key, e: Edit)

  /** The pair's commission and minimum stay fixed. */
  ghost predicate ValidStep(rows: seq<Tx>, s: Step, p: Pair, terms: Terms) {
    match s
    case TickPass(pass) => pass.pair == p ==> pass.terms == terms
    case NewRow(t) => IsNew(t) && forall u :: u in rows ==> u.guid != t.guid
    case WithdrawApi(key, e) => OnWithdrawals(rows, key)
  }

  function StepRows(rows: seq<Tx>, s: Step): seq<Tx> {
    match s
    case TickPass(pass) => Apply(rows, pass)
    case NewRow(t) => rows + [t]
    case WithdrawApi(key, e) => Put(rows, key, e)
  }

  function RunRows(rows: seq<Tx>, steps: seq<Step>): seq<Tx>
    decreases |steps|
  {
    if steps == [] then rows else RunRows(StepRows(rows, steps[0]), steps[1..])
  }

  ghost predicate ValidRun(rows: seq<Tx>, steps: seq<Step>, p: Pair, terms: Terms)
    decreases |steps|
  {
    steps == [] || (ValidStep(rows, steps[0], p, terms) && ValidRun(StepRows(rows, steps[0]), steps[1..], p, terms))
  }

  lemma RunCons(rows: seq<Tx>, s: Step, rest: seq<Step>, p: Pair, terms: Terms)
    ensures RunRows(rows, [s] + rest) == RunRows(StepRows(rows, s), rest)
    ensures ValidRun(rows, [s] + rest, p, terms)
       <==> ValidStep(rows, s, p, terms) && ValidRun(StepRows(rows, s), rest, p, terms)
  {
    assert ([s] + rest)[1..] == rest;
  }

  /** Both tables have the same rows, and the pair's deposits are the same in every column. */
  ghost predicate SameMine(rows: seq<Tx>, rows': seq<Tx>, p: Pair) {
    && |rows| == |rows'|
    && forall i :: 0 <= i < |rows| ==> SameIdentity(rows[i], rows'[i]) && (Mine(rows[i], p) ==> rows'[i] == rows[i])
  }

  lemma SameMineChain(rows: seq<Tx>, middle: seq<Tx>, rows': seq<Tx>, p: Pair)
    requires SameMine(rows, middle, p) && SameMine(middle, rows', p)
    ensures SameMine(rows, rows', p)
  {
    forall i | 0 <= i < |rows|
      ensures SameIdentity(rows[i], rows'[i]) && (Mine(rows[i], p) ==> rows'[i] == rows[i])
    {
      assert SameIdentity(rows[i], middle[i]) && SameIdentity(middle[i], rows'[i]);
    }
  }

  /** The withdraw phases of a pass touch no deposit. */
  lemma WithdrawPhasesKeepMine(rows: seq<Tx>, pass: Pass, p: Pair)
    requires UniqueGuids(rows)
    ensures var o := pass.outcomes;
            var after := PayPhase(CollectPhase(rows, pass.pair, pass.sending, o.collect), pass.pair, o.pay);
            SameMine(rows, after, p) && UniqueGuids(after)
  {
    var q, o := pass.pair, pass.outcomes;
    var collected := CollectPhase(rows, q, pass.sending, o.collect);
    forall i | 0 <= i < |rows|
      ensures SameIdentity(rows[i], collected[i]) && (Mine(rows[i], p) ==> collected[i] == rows[i])
    {
      CollectPhaseAt(rows, q, pass.sending, o.collect, i);
    }
    SameRowsKeepGuids(rows, collected);
    var paid := PayPhase(collected, q, o.pay);
    forall i | 0 <= i < |rows|
      ensures SameIdentity(collected[i], paid[i]) && (Mine(collected[i], p) ==> paid[i] == collected[i])
    {
      PayPhaseAt(collected, q, o.pay, i);
    }
    SameRowsKeepGuids(collected, paid);
    SameMineChain(rows, collected, paid, p);
  }

  /** A pass of another pair touches no deposit of this one. */
  lemma OtherPassKeepsMine(rows: seq<Tx>, pass: Pass, p: Pair)
    requires UniqueGuids(rows) && pass.pair != p
    ensures SameMine(rows, Apply(rows, pass), p) && UniqueGuids(Apply(rows, pass))
  {
    PassIsLocal(rows, rows, pass);
    SameRowsKeepGuids(rows, Apply(rows, pass));
  }

  lemma ApiCallKeepsMine(rows: seq<Tx>, key: Key, e: Edit, p: Pair)
    requires UniqueGuids(rows) && OnWithdrawals(rows, key)
    ensures SameMine(rows, Put(rows, key, e), p) && UniqueGuids(Put(rows, key, e))
  {
    forall i | 0 <= i < |rows| && Mine(rows[i], p) ensures KeyOf(rows[i]) != key {
      assert rows[i] in rows;
    }
    SameRowsKeepGuids(rows, Put(rows, key, e));
  }

  lemma NewRowKeepsGuids(rows: seq<Tx>, t: Tx)
    requires UniqueGuids(rows) && forall u :: u in rows ==> u.guid != t.guid
    ensures UniqueGuids(rows + [t])
  {
    assert forall i :: 0 <= i < |rows| ==> rows[i] in rows;
  }
}
