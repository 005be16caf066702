/** When the deposits of a merchant and blockchain can never be settled again: all runs, reduced to the tables that
    confirmations and newcomers can lead to. */
module Stall {
  import opened Transactions
  import opened Ledger
  import opened Settlement
  import opened SettlementTheorems
  import opened Deposits
  import opened Withdrawals
  import opened Passes
  import opened Lifecycle
  import opened Isolation
  import opened Runs

  /** The first positive running total of a batch, continued at `running`, reaches the minimum. */
  predicate CanSettle(batch: seq<Tx>, terms: Terms, running: real) {
    if batch == [] then false
    else
      var total := running + terms.Net(batch[0]);
      if total > 0.0 then total >= terms.minimum else CanSettle(batch[1..], terms, total)
  }

  /** If nothing failed, a settlement of this table would settle something. */
  predicate Ripe(rows: seq<Tx>, p: Pair, terms: Terms) {
    CanSettle(DepositBatch(rows, p, Processed), terms, 0.0)
  }

  lemma CanSettleStep(batch: seq<Tx>, terms: Terms, i: nat, running: real)
    requires i < |batch|
    ensures var total := running + terms.Net(batch[i]);
            CanSettle(batch[i..], terms, running)
            == if total > 0.0 then total >= terms.minimum else CanSettle(batch[i + 1..], terms, total)
  {
    assert batch[i..][0] == batch[i] && batch[i..][1..] == batch[i + 1..];
  }

  /** The first transfer attempted from position `i` on reaches the minimum. */
  predicate AttemptReaches(s: Settlement, i: nat)
    requires i <= |s.batch|
  {
    FirstAttempt(s, i) < |s.batch| && s.Running(FirstAttempt(s, i) + 1) >= s.terms.minimum
  }

  lemma AttemptStep(s: Settlement, i: nat)
    requires i < |s.batch|
    ensures var total := s.Running(i) + s.terms.Net(s.batch[i]);
            && s.Running(i + 1) == total
            && AttemptReaches(s, i) == if total > 0.0 then total >= s.terms.minimum else AttemptReaches(s, i + 1)
  {
    assert s.Running(i + 1) == s.Running(i) + s.terms.Net(s.batch[i]);
  }

  lemma {:induction false} CanSettleAtFirstAttempt(s: Settlement, i: nat)
    requires i <= |s.batch|
    ensures CanSettle(s.batch[i..], s.terms, s.Running(i)) <==> AttemptReaches(s, i)
    decreases |s.batch| - i
  {
    if i < |s.batch| {
      CanSettleStep(s.batch, s.terms, i, s.Running(i));
      AttemptStep(s, i);
      CanSettleAtFirstAttempt(s, i + 1);
    }
  }

  /** Row `i` is an `init` deposit of the pair that the next `init` batch fetches. */
  predicate Reachable(rows: seq<Tx>, p: Pair, i: nat)
    requires i < |rows|
  {
    Matches(rows[i], QueryOf(p, Init)) && CountBefore(rows, QueryOf(p, Init), i) < BATCH_LIMIT
  }

  /** What can become of deposit `i` before anything is settled: an `init` deposit can be confirmed once the older
      `init` deposits that are left leave room for it in a batch; a newcomer starts as `init`. */
  predicate MayBecome(rows: seq<Tx>, rows': seq<Tx>, p: Pair, i: nat)
    requires i < |rows'|
  {
    match if i < |rows| then rows[i].status else Init
    case Init =>
      || rows'[i].status == Init
      || (rows'[i].status == Processed && CountBefore(rows', QueryOf(p, Init), i) < BATCH_LIMIT)
    case Processed => rows'[i].status == Processed
    case Rejected => rows'[i].status == Rejected
    case _ => PaidOut(rows'[i])
  }

  /** The row as it was inserted. */
  function AsInserted(t: Tx): Tx {
    t.(status := Init, hash2 := "", hash3 := "", hash5 := "")
  }

  /** The table that some confirmations and some newcomers make of this one. */
  ghost predicate Possible(rows: seq<Tx>, rows': seq<Tx>, p: Pair) {
    && |rows| <= |rows'| && UniqueGuids(rows')
    && (forall i :: 0 <= i < |rows| ==> SameIdentity(rows[i], rows'[i]))
    && (forall i :: |rows| <= i < |rows'| ==> IsNew(AsInserted(rows'[i])))
    && (forall i :: 0 <= i < |rows'| && Mine(rows'[i], p) ==> MayBecome(rows, rows', p, i))
  }

  /** No deposit of the pair has become settled since `rows`. */
  ghost predicate NoneNewlySettled(rows: seq<Tx>, rows': seq<Tx>, p: Pair) {
    && |rows| <= |rows'|
    && (forall i :: 0 <= i < |rows| ==> SameIdentity(rows[i], rows'[i]))
    && forall i :: 0 <= i < |rows'| && Mine(rows'[i], p) && PaidOut(rows'[i]) ==> i < |rows| && PaidOut(rows[i])
  }

  ghost predicate StalledForever(rows: seq<Tx>, p: Pair, terms: Terms) {
    forall steps: seq<Step> :: ValidRun(rows, steps, p, terms) ==> NoneNewlySettled(rows, RunRows(rows, steps), p)
  }

  ghost predicate NeverRipe(rows: seq<Tx>, p: Pair, terms: Terms) {
    forall rows' :: Possible(rows, rows', p) ==> !Ripe(rows', p, terms)
  }

  lemma {:induction false} CountShrinks(rows: seq<Tx>, rows': seq<Tx>, q: Query, i: nat)
    requires i <= |rows| && i <= |rows'|
    requires forall k :: 0 <= k < i ==> Matches(rows'[k], q) ==> Matches(rows[k], q)
    ensures CountBefore(rows', q, i) <= CountBefore(rows, q, i)
  {
    if i > 0 {
      CountShrinks(rows[1..], rows'[1..], q, i - 1);
    }
  }

  // No run leaves the possible tables while none of them is ripe.

  /** How one phase moves a deposit of the pair before anything is settled. */
  predicate Moves(rows: seq<Tx>, rows': seq<Tx>, p: Pair, i: nat)
    requires i < |rows| == |rows'|
  {
    || rows'[i].status == rows[i].status
    || (PaidOut(rows[i]) && PaidOut(rows'[i]))
    || (Reachable(rows, p, i) && rows'[i].status == Processed)
  }

  lemma StaysPossible(rows: seq<Tx>, now: seq<Tx>, next: seq<Tx>, p: Pair)
    requires Possible(rows, now, p) && UniqueGuids(now) && SameRows(now, next)
    requires forall i :: 0 <= i < |now| && Mine(now[i], p) ==> Moves(now, next, p, i)
    ensures Possible(rows, next, p)
  {
    var q := QueryOf(p, Init);
    SameRowsKeepGuids(now, next);
    forall i | 0 <= i < |now|
      ensures Mine(next[i], p) == Mine(now[i], p) && (Matches(next[i], q) ==> Matches(now[i], q))
    {
      assert SameIdentity(now[i], next[i]);
    }
    forall i | 0 <= i < |rows| ensures SameIdentity(rows[i], next[i]) {
      assert SameIdentity(rows[i], now[i]) && SameIdentity(now[i], next[i]);
    }
    forall i | 0 <= i < |next| && Mine(next[i], p) ensures MayBecome(rows, next, p, i) {
      CountShrinks(now, next, q, i);
      assert MayBecome(rows, now, p, i) && Moves(now, next, p, i);
    }
  }

  lemma PossibleIsNotSettled(rows: seq<Tx>, now: seq<Tx>, p: Pair)
    requires Possible(rows, now, p)
    ensures NoneNewlySettled(rows, now, p)
  {
    forall i | 0 <= i < |now| && Mine(now[i], p) && PaidOut(now[i]) ensures i < |rows| && PaidOut(rows[i]) {
      assert MayBecome(rows, now, p, i);
    }
  }

  lemma {:induction false} NothingSettledRow(s: Settlement, t: Tx, visited: nat)
    requires visited <= |s.batch|
    requires forall j :: 0 <= j < |s.batch| && KeyOf(s.batch[j]) == KeyOf(t) ==> s.batch[j] == t
    requires forall j :: 0 <= j < |s.batch| ==> s.batch[j].status == Processed
    ensures SameIdentity(t, s.RowAfter(t, visited, -1)) && s.RowAfter(t, visited, -1).status == t.status
  {
  }

  lemma UnripeSettlesNothing(rows: seq<Tx>, p: Pair, terms: Terms, answers: Answers)
    requires !Ripe(rows, p, terms) || forall k: nat :: answers.broadcast(k).None?
    ensures var s := Settlement(DepositBatch(rows, p, Processed), terms, answers);
            s.LastSettling(s.VisitedFrom(0)) == -1
  {
    var s := Settlement(DepositBatch(rows, p, Processed), terms, answers);
    assert s.batch[0..] == s.batch;
    CanSettleAtFirstAttempt(s, 0);
    SettlesSomethingIff(s);
  }

  /** A settlement phase changes no status if its table is not ripe, or if its transfers are refused. */
  lemma UnripePhase(rows: seq<Tx>, p: Pair, terms: Terms, answers: Answers, i: nat)
    requires UniqueGuids(rows) && i < |rows|
    requires !Ripe(rows, p, terms) || forall k: nat :: answers.broadcast(k).None?
    ensures var row' := SettlePhase(rows, p, terms, answers)[i];
            SameIdentity(rows[i], row') && row'.status == rows[i].status && row'.hash2 == rows[i].hash2
  {
    var q := QueryOf(p, Processed);
    var s := Settlement(DepositBatch(rows, p, Processed), terms, answers);
    UnripeSettlesNothing(rows, p, terms, answers);
    FetchMembers(rows, q, BATCH_LIMIT);
    forall j | 0 <= j < |s.batch| && KeyOf(s.batch[j]) == KeyOf(rows[i]) ensures s.batch[j] == rows[i] {
      FetchedCopyIsTheRow(rows, q, BATCH_LIMIT, i, j);
    }
    NothingSettledRow(s, rows[i], s.VisitedFrom(0));
  }

  lemma InitPhaseStaysPossible(rows: seq<Tx>, now: seq<Tx>, p: Pair, answers: nat -> InitAnswer)
    requires Possible(rows, now, p)
    ensures Possible(rows, InitPhase(now, p, answers), p)
  {
    var q, next := QueryOf(p, Init), InitPhase(now, p, answers);
    PutsOfFetchIsWalk(now, q, BATCH_LIMIT, InitEdits(answers));
    forall i | 0 <= i < |now| ensures SameIdentity(now[i], next[i]) && Moves(now, next, p, i) {
      InitPhaseAt(now, p, answers, i);
      if next[i] != now[i] {
        WalkReaches(now, q, BATCH_LIMIT, InitEdits(answers), i);
      }
    }
    StaysPossible(rows, now, next, p);
  }

  lemma SettlePhaseStaysPossible(rows: seq<Tx>, now: seq<Tx>, p: Pair, terms: Terms, answers: Answers)
    requires Possible(rows, now, p) && !Ripe(now, p, terms)
    ensures Possible(rows, SettlePhase(now, p, terms, answers), p)
  {
    var next := SettlePhase(now, p, terms, answers);
    forall i | 0 <= i < |now| ensures SameIdentity(now[i], next[i]) && Moves(now, next, p, i) {
      UnripePhase(now, p, terms, answers, i);
    }
    StaysPossible(rows, now, next, p);
  }

  lemma DonePhaseStaysPossible(rows: seq<Tx>, now: seq<Tx>, p: Pair, answers: nat -> DoneAnswer)
    requires Possible(rows, now, p)
    ensures Possible(rows, DonePhase(now, p, answers), p)
  {
    var next := DonePhase(now, p, answers);
    forall i | 0 <= i < |now| ensures SameIdentity(now[i], next[i]) && Moves(now, next, p, i) {
      DonePhaseAt(now, p, answers, i);
    }
    StaysPossible(rows, now, next, p);
  }

  lemma SameMineStaysPossible(rows: seq<Tx>, now: seq<Tx>, next: seq<Tx>, p: Pair)
    requires Possible(rows, now, p) && SameMine(now, next, p)
    ensures Possible(rows, next, p)
  {
    StaysPossible(rows, now, next, p);
  }

  lemma NewRowStaysPossible(rows: seq<Tx>, now: seq<Tx>, t: Tx, p: Pair)
    requires Possible(rows, now, p) && IsNew(t) && forall u :: u in now ==> u.guid != t.guid
    ensures Possible(rows, now + [t], p)
  {
    var next := now + [t];
    NewRowKeepsGuids(now, t);
    forall i | 0 <= i < |next| && Mine(next[i], p) ensures MayBecome(rows, next, p, i) {
      if i < |now| {
        CountAgrees(now, next, QueryOf(p, Init), i);
        assert MayBecome(rows, now, p, i);
      }
    }
  }

  lemma OwnPassStaysPossible(rows: seq<Tx>, now: seq<Tx>, pass: Pass)
    requires Possible(rows, now, pass.pair) && NeverRipe(rows, pass.pair, pass.terms)
    ensures Possible(rows, Apply(now, pass), pass.pair)
  {
    var p, d := pass.pair, pass.outcomes.deposit;
    var now1 := InitPhase(now, p, d.init);
    InitPhaseStaysPossible(rows, now, p, d.init);
    var now2 := SettlePhase(now1, p, pass.terms, d.settle);
    SettlePhaseStaysPossible(rows, now1, p, pass.terms, d.settle);
    var now3 := DonePhase(now2, p, d.done);
    DonePhaseStaysPossible(rows, now2, p, d.done);
    WithdrawPhasesKeepMine(now3, pass, p);
    SameMineStaysPossible(rows, now3, Apply(now, pass), p);
  }

  lemma StepStaysPossible(rows: seq<Tx>, now: seq<Tx>, s: Step, p: Pair, terms: Terms)
    requires Possible(rows, now, p) && NeverRipe(rows, p, terms) && ValidStep(now, s, p, terms)
    ensures Possible(rows, StepRows(now, s), p)
  {
    match s
    case TickPass(pass) =>
      if pass.pair == p {
        OwnPassStaysPossible(rows, now, pass);
      } else {
        OtherPassKeepsMine(now, pass, p);
        SameMineStaysPossible(rows, now, Apply(now, pass), p);
      }
    case NewRow(t) =>
      NewRowStaysPossible(rows, now, t, p);
    case WithdrawApi(key, e) =>
      ApiCallKeepsMine(now, key, e, p);
      SameMineStaysPossible(rows, now, Put(now, key, e), p);
  }

  lemma {:induction false} RunStaysPossible(rows: seq<Tx>, now: seq<Tx>, steps: seq<Step>, p: Pair, terms: Terms)
    requires Possible(rows, now, p) && NeverRipe(rows, p, terms) && ValidRun(now, steps, p, terms)
    ensures Possible(rows, RunRows(now, steps), p)
    decreases |steps|
  {
    if steps != [] {
      StepStaysPossible(rows, now, steps[0], p, terms);
      RunStaysPossible(rows, StepRows(now, steps[0]), steps[1..], p, terms);
    }
  }

  // A ripe possible table can be reached, and then something is settled.

  /** Only transaction `g` is answered, with `a`; the settlement transfers are answered by `hash`. */
  function Favour(p: Pair, terms: Terms, g: nat, a: InitAnswer, hash: Option<string>): Pass {
    Pass(p, terms, SendingTerms(0.0, 0.0, "", ""),
         Outcomes(DepositAnswers((k: nat) => if k == g then a else InitAnswer(None, false, Pending, true),
                                 Answers((k: nat) => hash, (k: nat) => true),
                                 (k: nat) => DoneAnswer(Pending, true)),
                  (k: nat) => CollectResult(false, None, false),
                  (k: nat) => PayAnswer(None, false)))
  }

  lemma QuietTail(rows: seq<Tx>, p: Pair, s: SendingTerms, o: Outcomes)
    requires UniqueGuids(rows)
    requires forall g: nat :: o.deposit.done(g) == DoneAnswer(Pending, true)
    requires forall g: nat :: o.collect(g) == CollectResult(false, None, false) && o.pay(g) == PayAnswer(None, false)
    ensures PayPhase(CollectPhase(DonePhase(rows, p, o.deposit.done), p, s, o.collect), p, o.pay) == rows
  {
    forall t ensures DoneEdits(o.deposit.done)(t) == [] {
      assert o.deposit.done(t.guid) == DoneAnswer(Pending, true);
    }
    QuietPhase(rows, QueryOf(p, Settled), DoneEdits(o.deposit.done));
    forall t ensures CollectEdits(s, o.collect)(t) == [] {
      assert o.collect(t.guid) == CollectResult(false, None, false);
    }
    QuietPhase(rows, WithdrawQuery(p, Processed), CollectEdits(s, o.collect));
    forall t ensures PayEdits(o.pay)(t) == [] {
      assert o.pay(t.guid) == PayAnswer(None, false);
    }
    QuietPhase(rows, WithdrawQuery(p, Settled), PayEdits(o.pay));
  }

  lemma FavourIsEarlyPhases(rows: seq<Tx>, pass: Pass, p: Pair, terms: Terms, g: nat, a: InitAnswer,
                            hash: Option<string>)
    requires UniqueGuids(rows) && pass == Favour(p, terms, g, a, hash)
    ensures var d := pass.outcomes.deposit;
            && Apply(rows, pass) == SettlePhase(InitPhase(rows, p, d.init), p, terms, d.settle)
            && UniqueGuids(InitPhase(rows, p, d.init))
  {
    var d := pass.outcomes.deposit;
    EarlyPhasesKeepGuids(rows, p, terms, d);
    QuietTail(SettlePhase(InitPhase(rows, p, d.init), p, terms, d.settle), p, pass.sending, pass.outcomes);
  }

  lemma QuietPhase(rows: seq<Tx>, q: Query, f: Tx -> seq<Edit>)
    requires UniqueGuids(rows) && forall t :: f(t) == []
    ensures Puts(rows, Fetch(rows, q, BATCH_LIMIT), f) == rows
  {
    forall i | 0 <= i < |rows| ensures Puts(rows, Fetch(rows, q, BATCH_LIMIT), f)[i] == rows[i] {
      PhaseAt(rows, q, f, i);
    }
  }

  /** The favoured row gets its edit; every other row's status stays. */
  lemma FavouredInit(rows: seq<Tx>, p: Pair, o: nat, answers: nat -> InitAnswer, i: nat)
    requires UniqueGuids(rows) && o < |rows| && Reachable(rows, p, o) && i < |rows|
    requires forall k: nat :: k != rows[o].guid ==> answers(k) == InitAnswer(None, false, Pending, true)
    ensures var rows' := InitPhase(rows, p, answers);
            && (i == o ==> rows'[i] == EditedAll(rows[o], InitEdit(rows[o], answers(rows[o].guid))))
            && (i != o ==> rows'[i] == rows[i])
  {
    var q := QueryOf(p, Init);
    PutsOfFetchIsWalk(rows, q, BATCH_LIMIT, InitEdits(answers));
    if i == o {
      WalkHits(rows, q, BATCH_LIMIT, InitEdits(answers), i);
    } else {
      PhaseAt(rows, q, InitEdits(answers), i);
      assert rows[i].guid != rows[o].guid by {
        if i < o { assert rows[i].guid != rows[o].guid; } else { assert rows[o].guid != rows[i].guid; }
      }
      assert InitEdit(rows[i], answers(rows[i].guid)) == [];
    }
  }

  /** First tick: the older deposit is broadcast (unless it already was), everything else stays. */
  lemma BroadcastOlder(rows: seq<Tx>, p: Pair, terms: Terms, o: nat) returns (pass: Pass)
    requires UniqueGuids(rows) && o < |rows| && Reachable(rows, p, o)
    ensures pass.pair == p && pass.terms == terms
    ensures var rows' := Apply(rows, pass);
            && |rows'| == |rows| && rows'[o].hash2 != ""
            && forall i :: 0 <= i < |rows| ==> SameIdentity(rows[i], rows'[i]) && rows'[i].status == rows[i].status
  {
    var a := InitAnswer(Some("h"), true, Pending, true);
    pass := Favour(p, terms, rows[o].guid, a, None);
    var d := pass.outcomes.deposit;
    FavourIsEarlyPhases(rows, pass, p, terms, rows[o].guid, a, None);
    EditedAllOne(rows[o], InitEdit(rows[o], a));
    forall i | 0 <= i < |rows|
      ensures var row' := Apply(rows, pass)[i];
              && SameIdentity(rows[i], row') && row'.status == rows[i].status && (i == o ==> row'.hash2 != "")
    {
      FavouredInit(rows, p, o, d.init, i);
      UnripePhase(InitPhase(rows, p, d.init), p, terms, d.settle, i);
    }
  }

  /** A broadcast deposit can be confirmed while everything else stays. */
  lemma ConfirmOlder(rows: seq<Tx>, p: Pair, terms: Terms, o: nat) returns (pass: Pass)
    requires UniqueGuids(rows) && o < |rows| && Reachable(rows, p, o) && rows[o].hash2 != ""
    ensures pass.pair == p && pass.terms == terms
    ensures var rows' := Apply(rows, pass);
            && |rows'| == |rows| && rows'[o].status == Processed
            && forall i :: 0 <= i < |rows| ==>
                 SameIdentity(rows[i], rows'[i]) && (i != o ==> rows'[i].status == rows[i].status)
  {
    var a := InitAnswer(None, false, Successful, true);
    pass := Favour(p, terms, rows[o].guid, a, None);
    var d := pass.outcomes.deposit;
    FavourIsEarlyPhases(rows, pass, p, terms, rows[o].guid, a, None);
    EditedAllOne(rows[o], InitEdit(rows[o], a));
    forall i | 0 <= i < |rows|
      ensures var row' := Apply(rows, pass)[i];
              SameIdentity(rows[i], row') && row'.status == if i == o then Processed else rows[i].status
    {
      FavouredInit(rows, p, o, d.init, i);
      UnripePhase(InitPhase(rows, p, d.init), p, terms, d.settle, i);
    }
  }

  lemma HeadOfBatchIsSettled(s: Settlement, t: Tx)
    requires UniqueGuids(s.batch) && s.batch != [] && s.batch[0] == t && s.LastSettling(s.VisitedFrom(0)) >= 0
    ensures s.RowAfter(t, s.VisitedFrom(0), s.LastSettling(s.VisitedFrom(0))).status == Settled
  {
    s.PositionIsUnique(0);
  }

  lemma RipePhaseSettles(rows: seq<Tx>, p: Pair, terms: Terms, answers: Answers) returns (o: nat)
    requires UniqueGuids(rows) && Ripe(rows, p, terms)
    requires forall k: nat :: answers.broadcast(k).Some? && answers.callback(k)
    ensures o < |rows| && Matches(rows[o], QueryOf(p, Processed))
    ensures SettlePhase(rows, p, terms, answers)[o].status == Settled
  {
    var q := QueryOf(p, Processed);
    var s := Settlement(DepositBatch(rows, p, Processed), terms, answers);
    assert s.batch[0..] == s.batch;
    CanSettleAtFirstAttempt(s, 0);
    SettlesSomethingIff(s);
    FetchMembers(rows, q, BATCH_LIMIT);
    FetchHasUniqueGuids(rows, q, BATCH_LIMIT);
    o := IndexOf(rows, s.batch[0]);
    HeadOfBatchIsSettled(s, rows[o]);
  }

  /** A ripe table settles a processed deposit when nothing fails. */
  lemma RipeIsSettled(rows: seq<Tx>, p: Pair, terms: Terms) returns (pass: Pass, o: nat)
    requires UniqueGuids(rows) && Ripe(rows, p, terms)
    ensures pass.pair == p && pass.terms == terms && |Apply(rows, pass)| == |rows|
    ensures o < |rows| && Matches(rows[o], QueryOf(p, Processed))
    ensures Mine(Apply(rows, pass)[o], p) && Apply(rows, pass)[o].status == Settled
  {
    var quiet := InitAnswer(None, false, Pending, true);
    pass := Favour(p, terms, 0, quiet, Some("s"));
    var d := pass.outcomes.deposit;
    FavourIsEarlyPhases(rows, pass, p, terms, 0, quiet, Some("s"));
    assert InitPhase(rows, p, d.init) == rows by {
      forall t ensures InitEdits(d.init)(t) == [] {
        assert d.init(t.guid) == quiet;
      }
      QuietPhase(rows, QueryOf(p, Init), InitEdits(d.init));
    }
    o := RipePhaseSettles(rows, p, terms, d.settle);
    SettlePhaseAt(rows, p, terms, d.settle, o);
  }

  /** The same progress of the pair's deposits, as far as settling is concerned. */
  predicate Alike(t: Tx, u: Tx, p: Pair) {
    && SameIdentity(t, u)
    && (Mine(t, p) ==> (t.status == Init <==> u.status == Init) && (t.status == Processed <==> u.status == Processed))
  }

  lemma {:induction false} AlikeFetchNets(rows: seq<Tx>, rows': seq<Tx>, p: Pair, terms: Terms, limit: nat,
                                          running: real)
    requires |rows| == |rows'| && forall i :: 0 <= i < |rows| ==> Alike(rows[i], rows'[i], p)
    ensures CanSettle(Fetch(rows, QueryOf(p, Processed), limit), terms, running)
         == CanSettle(Fetch(rows', QueryOf(p, Processed), limit), terms, running)
  {
    if rows != [] && limit > 0 {
      assert Alike(rows[0], rows'[0], p);
      if Matches(rows[0], QueryOf(p, Processed)) {
        AlikeFetchNets(rows[1..], rows'[1..], p, terms, limit - 1, running + terms.Net(rows[0]));
      } else {
        AlikeFetchNets(rows[1..], rows'[1..], p, terms, limit, running);
      }
    }
  }

  /** A deposit of the pair that still has to be confirmed on the way to the goal. */
  predicate ToConfirm(t: Tx, goal: seq<Tx>, p: Pair, k: nat)
    requires k < |goal|
  {
    && Matches(t, QueryOf(p, Init)) && goal[k].status == Processed
    && CountBefore(goal, QueryOf(p, Init), k) < BATCH_LIMIT
  }

  /** On the way from `now` to the goal, with the confirmations before `i` done. */
  ghost predicate Underway(now: seq<Tx>, goal: seq<Tx>, p: Pair, i: nat) {
    && i <= |now| <= |goal| && UniqueGuids(now) && UniqueGuids(goal)
    && (forall k :: 0 <= k < |now| ==> SameIdentity(now[k], goal[k]))
    && (forall k :: 0 <= k < i ==> Alike(now[k], goal[k], p))
    && (forall k :: i <= k < |now| ==> Alike(now[k], goal[k], p) || ToConfirm(now[k], goal, p, k))
    && (forall k :: |now| <= k < |goal| ==> IsNew(AsInserted(goal[k])))
    && (forall k :: |now| <= k < |goal| && Mine(goal[k], p) ==> MayBecome(now, goal, p, k))
  }

  /** A run that settles a deposit which is `processed` in the goal. */
  ghost predicate Frees(now: seq<Tx>, steps: seq<Step>, goal: seq<Tx>, p: Pair, terms: Terms, o: nat) {
    && ValidRun(now, steps, p, terms)
    && o < |goal| == |RunRows(now, steps)| && Matches(goal[o], QueryOf(p, Processed))
    && Mine(RunRows(now, steps)[o], p) && RunRows(now, steps)[o].status == Settled
  }

  lemma SettleNow(now: seq<Tx>, goal: seq<Tx>, p: Pair, terms: Terms) returns (steps: seq<Step>, o: nat)
    requires Underway(now, goal, p, |now|) && |now| == |goal| && Ripe(goal, p, terms)
    ensures Frees(now, steps, goal, p, terms, o)
  {
    AlikeFetchNets(now, goal, p, terms, BATCH_LIMIT, 0.0);
    var pass, k := RipeIsSettled(now, p, terms);
    RunCons(now, TickPass(pass), [], p, terms);
    steps, o := [TickPass(pass)] + [], k;
    assert Alike(now[o], goal[o], p);
  }

  /** A deposit that still has to be confirmed is in reach once all older confirmations are done. */
  lemma IsReachable(now: seq<Tx>, goal: seq<Tx>, p: Pair, i: nat)
    requires Underway(now, goal, p, i) && i < |now| && !Alike(now[i], goal[i], p)
    ensures Reachable(now, p, i)
  {
    var q := QueryOf(p, Init);
    forall k | 0 <= k < i ensures Matches(now[k], q) == Matches(goal[k], q) {
      assert Alike(now[k], goal[k], p) && SameIdentity(now[k], goal[k]);
    }
    CountAgrees(now, goal, q, i);
  }

  /** The same identities and statuses. */
  ghost predicate SameStatuses(now: seq<Tx>, next: seq<Tx>) {
    && |now| == |next|
    && forall k :: 0 <= k < |now| ==> SameIdentity(now[k], next[k]) && next[k].status == now[k].status
  }

  lemma StaysReachable(now: seq<Tx>, next: seq<Tx>, p: Pair, i: nat)
    requires SameStatuses(now, next) && UniqueGuids(now) && i < |now| && Reachable(now, p, i)
    ensures Reachable(next, p, i) && UniqueGuids(next)
  {
    forall k | 0 <= k <= i ensures Matches(now[k], QueryOf(p, Init)) == Matches(next[k], QueryOf(p, Init)) {
      assert SameIdentity(now[k], next[k]);
    }
    CountAgrees(now, next, QueryOf(p, Init), i);
    SameRowsKeepGuids(now, next);
  }

  /** With deposit `i` confirmed and all else as it was, the confirmations up to `i` are done. */
  lemma OneMoreConfirmed(now: seq<Tx>, next: seq<Tx>, goal: seq<Tx>, p: Pair, i: nat)
    requires Underway(now, goal, p, i) && i < |now| == |next| && !Alike(now[i], goal[i], p)
    requires forall k :: 0 <= k < |now| ==>
               SameIdentity(now[k], next[k]) && next[k].status == if k == i then Processed else now[k].status
    ensures Underway(next, goal, p, i + 1)
  {
    SameRowsKeepGuids(now, next);
    forall k | 0 <= k < |now|
      ensures SameIdentity(next[k], goal[k])
      ensures Alike(next[k], goal[k], p) || (k > i && ToConfirm(next[k], goal, p, k))
    {
      assert SameIdentity(now[k], next[k]) && SameIdentity(now[k], goal[k]);
      assert Alike(now[k], goal[k], p) || (k >= i && ToConfirm(now[k], goal, p, k));
    }
    forall k | |next| <= k < |goal| && Mine(goal[k], p) ensures MayBecome(next, goal, p, k) {
      assert MayBecome(now, goal, p, k);
    }
  }

  /** Two passes confirm deposit `i`. */
  lemma ConfirmInTwo(now: seq<Tx>, goal: seq<Tx>, p: Pair, terms: Terms, i: nat) returns (first: Pass, second: Pass)
    requires Underway(now, goal, p, i) && |now| == |goal| && i < |now| && !Alike(now[i], goal[i], p)
    ensures first.pair == second.pair == p && first.terms == second.terms == terms
    ensures Underway(Apply(Apply(now, first), second), goal, p, i + 1)
    ensures |Apply(Apply(now, first), second)| == |now|
  {
    IsReachable(now, goal, p, i);
    first := BroadcastOlder(now, p, terms, i);
    var middle := Apply(now, first);
    StaysReachable(now, middle, p, i);
    second := ConfirmOlder(middle, p, terms, i);
    var next := Apply(middle, second);
    forall k | 0 <= k < |now|
      ensures SameIdentity(now[k], next[k]) && next[k].status == if k == i then Processed else now[k].status
    {
      assert SameIdentity(now[k], middle[k]) && SameIdentity(middle[k], next[k]);
    }
    OneMoreConfirmed(now, next, goal, p, i);
  }

  lemma {:induction false} Confirmations(now: seq<Tx>, goal: seq<Tx>, p: Pair, terms: Terms, i: nat)
    returns (steps: seq<Step>, o: nat)
    requires Underway(now, goal, p, i) && |now| == |goal| && Ripe(goal, p, terms)
    ensures Frees(now, steps, goal, p, terms, o)
    decreases |now| - i
  {
    if i == |now| {
      steps, o := SettleNow(now, goal, p, terms);
    } else if Alike(now[i], goal[i], p) {
      steps, o := Confirmations(now, goal, p, terms, i + 1);
    } else {
      var first, second := ConfirmInTwo(now, goal, p, terms, i);
      var middle := Apply(now, first);
      var rest, k := Confirmations(Apply(middle, second), goal, p, terms, i + 1);
      RunCons(middle, TickPass(second), rest, p, terms);
      RunCons(now, TickPass(first), [TickPass(second)] + rest, p, terms);
      steps, o := [TickPass(first)] + ([TickPass(second)] + rest), k;
    }
  }

  lemma {:induction false} Arrivals(now: seq<Tx>, goal: seq<Tx>, p: Pair, terms: Terms)
    returns (steps: seq<Step>, o: nat)
    requires Underway(now, goal, p, 0) && Ripe(goal, p, terms)
    ensures Frees(now, steps, goal, p, terms, o)
    decreases |goal| - |now|
  {
    if |now| == |goal| {
      steps, o := Confirmations(now, goal, p, terms, 0);
    } else {
      var t := AsInserted(goal[|now|]);
      forall u | u in now ensures u.guid != t.guid {
        var k :| 0 <= k < |now| && now[k] == u;
        assert SameIdentity(now[k], goal[k]);
      }
      NewRowKeepsGuids(now, t);
      var rest, k := Arrivals(now + [t], goal, p, terms);
      RunCons(now, NewRow(t), rest, p, terms);
      steps, o := [NewRow(t)] + rest, k;
    }
  }

  lemma RipeGoalFrees(rows: seq<Tx>, goal: seq<Tx>, p: Pair, terms: Terms)
    requires UniqueGuids(rows) && Possible(rows, goal, p) && Ripe(goal, p, terms)
    ensures !StalledForever(rows, p, terms)
  {
    forall k | 0 <= k < |rows| ensures Alike(rows[k], goal[k], p) || ToConfirm(rows[k], goal, p, k) {
      assert SameIdentity(rows[k], goal[k]);
      assert Mine(goal[k], p) ==> MayBecome(rows, goal, p, k);
    }
    var steps, o := Arrivals(rows, goal, p, terms);
    assert !NoneNewlySettled(rows, RunRows(rows, steps), p) by {
      assert MayBecome(rows, goal, p, o);
      assert Mine(RunRows(rows, steps)[o], p) && PaidOut(RunRows(rows, steps)[o]);
    }
  }

  /** Over all runs of ticks, newcomers and API calls, the deposits of a pair are stalled for good if and only if no
      table that confirmations and newcomers can make of the present one is ripe. */
  lemma StalledIffNeverRipe(rows: seq<Tx>, p: Pair, terms: Terms)
    requires UniqueGuids(rows)
    ensures StalledForever(rows, p, terms) <==> NeverRipe(rows, p, terms)
  {
    if NeverRipe(rows, p, terms) {
      forall i | 0 <= i < |rows| && Mine(rows[i], p) ensures MayBecome(rows, rows, p, i) {
      }
      assert Possible(rows, rows, p);
      forall steps: seq<Step> | ValidRun(rows, steps, p, terms)
        ensures NoneNewlySettled(rows, RunRows(rows, steps), p)
      {
        RunStaysPossible(rows, rows, steps, p, terms);
        PossibleIsNotSettled(rows, RunRows(rows, steps), p);
      }
    } else {
      var goal :| Possible(rows, goal, p) && Ripe(goal, p, terms);
      RipeGoalFrees(rows, goal, p, terms);
    }
  }
}
