/** One scheduler pass for a (merchant, blockchain) pair at the level of the transaction table: three deposit
    phases, then two withdraw phases.  The results of the processor's calls are inputs. */
module Passes {
  import opened Transactions
  import opened Ledger
  import opened Settlement
  import opened Deposits
  import opened Withdrawals

  /** What one iteration of `processWithdrawProcessed` did: re-put written, hash of the collection, settle written. */
  datatype CollectResult = CollectResult(reput: bool, hash: Option<string>, stored: bool)

  datatype Outcomes = Outcomes(deposit: DepositAnswers, collect: nat -> CollectResult, pay: nat -> PayAnswer)

  datatype Pass = Pass(pair: Pair, terms: Terms, sending: SendingTerms, outcomes: Outcomes)

  function CollectWrites(t: Tx, commission: real, r: CollectResult): seq<Edit> {
    (if r.reput then [Process(t.hash1, commission)] else [])
    + (if r.hash.Some? && r.stored then [Settle(r.hash.value)] else [])
  }

  function CollectEdits(s: SendingTerms, results: nat -> CollectResult): Tx -> seq<Edit> {
    (t: Tx) => CollectWrites(t, s.StoredCommission(t.amount), results(t.guid))
  }

  function PayEdit(r: PayAnswer): seq<Edit> {
    if r.broadcast.Some? && r.stored then [Finish(r.broadcast.value)] else []
  }

  function PayEdits(results: nat -> PayAnswer): Tx -> seq<Edit> {
    (t: Tx) => PayEdit(results(t.guid))
  }

  function WithdrawQuery(p: Pair, status: Status): Query {
    Query(p.merchant, p.blockchain, Withdraw, status)
  }

  function CollectPhase(rows: seq<Tx>, p: Pair, s: SendingTerms, results: nat -> CollectResult): seq<Tx> {
    Puts(rows, Fetch(rows, WithdrawQuery(p, Processed), BATCH_LIMIT), CollectEdits(s, results))
  }

  function PayPhase(rows: seq<Tx>, p: Pair, results: nat -> PayAnswer): seq<Tx> {
    Puts(rows, Fetch(rows, WithdrawQuery(p, Settled), BATCH_LIMIT), PayEdits(results))
  }

  function Apply(rows: seq<Tx>, pass: Pass): seq<Tx> {
    var afterDeposits := DepositPass(rows, pass.pair, pass.terms, pass.outcomes.deposit);
    PayPhase(CollectPhase(afterDeposits, pass.pair, pass.sending, pass.outcomes.collect), pass.pair, pass.outcomes.pay)
  }

  predicate InPair(t: Tx, p: Pair) {
    t.merchant == p.merchant && t.blockchain == p.blockchain
  }

  ghost predicate SameRows(rows: seq<Tx>, rows': seq<Tx>) {
    |rows| == |rows'| && forall i :: 0 <= i < |rows| ==> SameIdentity(rows[i], rows'[i])
  }

  lemma SameRowsKeepGuids(rows: seq<Tx>, rows': seq<Tx>)
    requires UniqueGuids(rows) && SameRows(rows, rows')
    ensures UniqueGuids(rows')
  {
    forall i, j | 0 <= i < j < |rows'| ensures rows'[i].guid != rows'[j].guid {
      assert SameIdentity(rows[i], rows'[i]) && SameIdentity(rows[j], rows'[j]);
    }
  }

  lemma {:induction false} WalkAt(rows: seq<Tx>, q: Query, limit: nat, f: Tx -> seq<Edit>, i: nat)
    requires i < |rows|
    ensures Walk(rows, q, limit, f)[i] == rows[i]
         || (Matches(rows[i], q) && Walk(rows, q, limit, f)[i] == EditedAll(rows[i], f(rows[i])))
  {
    if limit > 0 && i > 0 {
      WalkAt(rows[1..], q, if Matches(rows[0], q) then limit - 1 else limit, f, i - 1);
    }
  }

  /** In a fetch-and-update phase every row either stays or was fetched and received its own edits. */
  lemma PhaseAt(rows: seq<Tx>, q: Query, f: Tx -> seq<Edit>, i: nat)
    requires UniqueGuids(rows) && i < |rows|
    ensures var rows' := Puts(rows, Fetch(rows, q, BATCH_LIMIT), f);
            && SameIdentity(rows[i], rows'[i])
            && (rows'[i] == rows[i] || (Matches(rows[i], q) && rows'[i] == EditedAll(rows[i], f(rows[i]))))
  {
    PutsOfFetchIsWalk(rows, q, BATCH_LIMIT, f);
    WalkAt(rows, q, BATCH_LIMIT, f, i);
    EditedAllKeepsIdentity(rows[i], f(rows[i]));
  }

  /** … namely the rows with fewer than a batch of older ones to fetch. */
  lemma PhaseIsExact(rows: seq<Tx>, q: Query, f: Tx -> seq<Edit>, i: nat)
    requires UniqueGuids(rows) && i < |rows|
    ensures Puts(rows, Fetch(rows, q, BATCH_LIMIT), f)[i]
         == if Matches(rows[i], q) && CountBefore(rows, q, i) < BATCH_LIMIT then EditedAll(rows[i], f(rows[i]))
            else rows[i]
  {
    PutsOfFetchIsWalk(rows, q, BATCH_LIMIT, f);
    if Walk(rows, q, BATCH_LIMIT, f)[i] != rows[i] {
      WalkReaches(rows, q, BATCH_LIMIT, f, i);
    }
    if Matches(rows[i], q) && CountBefore(rows, q, i) < BATCH_LIMIT {
      WalkHits(rows, q, BATCH_LIMIT, f, i);
    }
  }

  lemma FetchedCopyIsTheRow(rows: seq<Tx>, q: Query, limit: nat, i: nat, j: nat)
    requires UniqueGuids(rows) && i < |rows| && j < |Fetch(rows, q, limit)|
    requires KeyOf(Fetch(rows, q, limit)[j]) == KeyOf(rows[i])
    ensures Fetch(rows, q, limit)[j] == rows[i]
  {
    FetchMembers(rows, q, limit);
    var k :| 0 <= k < |rows| && rows[k] == Fetch(rows, q, limit)[j];
    assert rows[k].guid == rows[i].guid;
  }

  lemma RowAfterAt(s: Settlement, t: Tx, visited: nat, last: int)
    requires visited <= |s.batch| && -1 <= last < |s.batch|
    ensures var row' := s.RowAfter(t, visited, last);
            && SameIdentity(t, row')
            && (row'.status == t.status || row'.status == Processed || row'.status == Settled)
            && (Position(s.batch, KeyOf(t)) < 0 ==> row' == t)
  {
  }

  /** The settlement phase changes only fetched deposits: re-put as processed or settled. */
  lemma SettlePhaseAt(rows: seq<Tx>, p: Pair, terms: Terms, answers: Answers, i: nat)
    requires UniqueGuids(rows) && i < |rows|
    ensures var row' := SettlePhase(rows, p, terms, answers)[i];
            && SameIdentity(rows[i], row')
            && (row' == rows[i] || (Matches(rows[i], Query(p.merchant, p.blockchain, Deposit, Processed))
                                    && (row'.status == Processed || row'.status == Settled)))
  {
    var q := Query(p.merchant, p.blockchain, Deposit, Processed);
    var s := Settlement(DepositBatch(rows, p, Processed), terms, answers);
    RowAfterAt(s, rows[i], s.VisitedFrom(0), s.LastSettling(s.VisitedFrom(0)));
    var j := Position(s.batch, KeyOf(rows[i]));
    if j >= 0 {
      FetchedCopyIsTheRow(rows, q, BATCH_LIMIT, i, j);
      FetchMembers(rows, q, BATCH_LIMIT);
    }
  }

  lemma InitPhaseAt(rows: seq<Tx>, p: Pair, answers: nat -> InitAnswer, i: nat)
    requires UniqueGuids(rows) && i < |rows|
    ensures var row' := InitPhase(rows, p, answers)[i];
            && SameIdentity(rows[i], row')
            && (row' == rows[i] || (Matches(rows[i], Query(p.merchant, p.blockchain, Deposit, Init))
                                    && (row'.status == Init || row'.status == Processed)))
  {
    PhaseAt(rows, Query(p.merchant, p.blockchain, Deposit, Init), InitEdits(answers), i);
    EditedAllOne(rows[i], InitEdit(rows[i], answers(rows[i].guid)));
  }

  lemma DonePhaseAt(rows: seq<Tx>, p: Pair, answers: nat -> DoneAnswer, i: nat)
    requires UniqueGuids(rows) && i < |rows|
    ensures var row' := DonePhase(rows, p, answers)[i];
            && SameIdentity(rows[i], row')
            && (row' == rows[i] || (Matches(rows[i], Query(p.merchant, p.blockchain, Deposit, Settled))
                                    && (row'.status == Settled || row'.status == Done)))
  {
    PhaseAt(rows, Query(p.merchant, p.blockchain, Deposit, Settled), DoneEdits(answers), i);
    EditedAllOne(rows[i], DoneEdit(rows[i], answers(rows[i].guid)));
  }

  lemma CollectPhaseAt(rows: seq<Tx>, p: Pair, s: SendingTerms, results: nat -> CollectResult, i: nat)
    requires UniqueGuids(rows) && i < |rows|
    ensures var row' := CollectPhase(rows, p, s, results)[i];
            && SameIdentity(rows[i], row')
            && (row' == rows[i] || (Matches(rows[i], WithdrawQuery(p, Processed))
                                    && (row'.status == Processed || row'.status == Settled)))
  {
    PhaseAt(rows, WithdrawQuery(p, Processed), CollectEdits(s, results), i);
    if rows[i].status == Processed {
      var r := results(rows[i].guid);
      ReputThenSettled(rows[i], if r.reput then [Process(rows[i].hash1, s.StoredCommission(rows[i].amount))] else [],
                       if r.hash.Some? && r.stored then [Settle(r.hash.value)] else []);
    }
  }

  lemma ReputThenSettled(t: Tx, reput: seq<Edit>, settled: seq<Edit>)
    requires t.status == Processed && |reput| <= 1 && |settled| <= 1
    requires (reput != [] ==> reput[0].Process?) && (settled != [] ==> settled[0].Settle?)
    ensures EditedAll(t, reput + settled).status == if settled == [] then Processed else Settled
  {
    EditedAllTwo(t, reput, settled);
  }

  lemma PayPhaseAt(rows: seq<Tx>, p: Pair, results: nat -> PayAnswer, i: nat)
    requires UniqueGuids(rows) && i < |rows|
    ensures var row' := PayPhase(rows, p, results)[i];
            && SameIdentity(rows[i], row')
            && (row' == rows[i] || (Matches(rows[i], WithdrawQuery(p, Settled))
                                    && (row'.status == Settled || row'.status == Done)))
  {
    PhaseAt(rows, WithdrawQuery(p, Settled), PayEdits(results), i);
    EditedAllOne(rows[i], PayEdit(results(rows[i].guid)));
  }

  lemma EditedAllOne(t: Tx, es: seq<Edit>)
    requires |es| <= 1
    ensures EditedAll(t, es) == if es == [] then t else Edited(t, es[0])
  {
    if es != [] {
      assert es[..0] == [];
    }
  }

  lemma EditedAllTwo(t: Tx, es: seq<Edit>, fs: seq<Edit>)
    requires |es| <= 1 && |fs| <= 1
    ensures var u := if es == [] then t else Edited(t, es[0]);
            EditedAll(t, es + fs) == if fs == [] then u else Edited(u, fs[0])
  {
    EditedAllOne(t, es);
    if fs == [] {
      assert es + fs == es;
    } else {
      assert (es + fs)[..|es|] == es;
    }
  }

  lemma PutsKeepRows(rows: seq<Tx>, batch: seq<Tx>, f: Tx -> seq<Edit>)
    ensures SameRows(rows, Puts(rows, batch, f))
  {
    forall i | 0 <= i < |rows| ensures SameIdentity(rows[i], Puts(rows, batch, f)[i]) {
      PutsIsPointwise(rows, batch, f, i);
    }
  }

  /** The first two phases of a pass keep what identifies the rows. */
  lemma EarlyPhasesKeepGuids(rows: seq<Tx>, p: Pair, terms: Terms, d: DepositAnswers)
    requires UniqueGuids(rows)
    ensures SameRows(rows, InitPhase(rows, p, d.init)) && UniqueGuids(InitPhase(rows, p, d.init))
    ensures SameRows(InitPhase(rows, p, d.init), SettlePhase(InitPhase(rows, p, d.init), p, terms, d.settle))
    ensures UniqueGuids(SettlePhase(InitPhase(rows, p, d.init), p, terms, d.settle))
  {
    var rows1 := InitPhase(rows, p, d.init);
    forall i | 0 <= i < |rows| ensures SameIdentity(rows[i], rows1[i]) { InitPhaseAt(rows, p, d.init, i); }
    SameRowsKeepGuids(rows, rows1);
    var rows2 := SettlePhase(rows1, p, terms, d.settle);
    forall i | 0 <= i < |rows| ensures SameIdentity(rows1[i], rows2[i]) { SettlePhaseAt(rows1, p, terms, d.settle, i); }
    SameRowsKeepGuids(rows1, rows2);
  }
}
