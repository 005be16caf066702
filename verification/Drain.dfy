/** When nothing fails and every deposit pays its way, the deposit pipeline drains, and how fast. */
module Drain {
  import opened Transactions
  import opened Ledger
  import opened Settlement
  import opened Deposits
  import opened Passes
  import opened Lifecycle
  import opened Runs

  /** Every processor, status and callback-lookup call succeeds, rows are written, hashes are not empty. */
  ghost predicate AllSucceed(a: DepositAnswers) {
    && (forall g: nat :: a.init(g).transfer.Some? && a.init(g).transfer.value != ""
                         && a.init(g).status == Successful && a.init(g).stored)
    && (forall i: nat :: a.settle.broadcast(i).Some? && a.settle.broadcast(i).value != "" && a.settle.callback(i))
    && (forall g: nat :: a.done(g).status == Successful && a.done(g).stored)
  }

  predicate GoodNet(t: Tx, terms: Terms) {
    terms.Net(t) > 0.0 && terms.Net(t) >= terms.minimum
  }

  /** Every deposit of the pair that is not final yet has a positive net amount that reaches the minimum. */
  ghost predicate Profitable(rows: seq<Tx>, p: Pair, terms: Terms) {
    forall i :: 0 <= i < |rows| && Mine(rows[i], p) && !Final(rows[i]) ==> GoodNet(rows[i], terms)
  }

  /** The phase that settles a whole batch with one hash, as edits. */
  function SettleEdits(terms: Terms, hash: string): Tx -> seq<Edit> {
    (t: Tx) => [Process(t.hash2, terms.Commission(t)), Settle(hash)]
  }

  lemma {:induction false} RunningIsLarge(s: Settlement, n: nat)
    requires 0 < n <= |s.batch| && forall j :: 0 <= j < n ==> GoodNet(s.batch[j], s.terms)
    ensures s.Running(n) > 0.0 && s.Running(n) >= s.terms.minimum
  {
    if n > 1 {
      RunningIsLarge(s, n - 1);
    }
    assert s.Running(n) == s.Running(n - 1) + s.terms.Net(s.batch[n - 1]);
  }

  /** However the batch goes on, its good deposits at the front are visited and covered by the last transfer. */
  lemma GoodFrontSettles(s: Settlement, m: nat)
    requires 0 < m <= |s.batch| && forall j :: 0 <= j < m ==> GoodNet(s.batch[j], s.terms)
    requires forall i: nat :: s.answers.broadcast(i).Some? && s.answers.callback(i)
    ensures s.VisitedFrom(0) >= m && s.LastSettling(s.VisitedFrom(0)) >= m - 1
  {
    forall i | 0 <= i < m ensures s.Settles(i) {
      RunningIsLarge(s, i + 1);
    }
    assert s.Settles(m - 1);
  }

  lemma SettledRow(s: Settlement, rows: seq<Tx>, m: nat, i: nat)
    requires 0 < m <= |s.batch| && UniqueGuids(s.batch) && i < |rows|
    requires s.VisitedFrom(0) >= m && s.LastSettling(s.VisitedFrom(0)) >= m - 1
    requires forall j :: 0 <= j < |s.batch| && KeyOf(s.batch[j]) == KeyOf(rows[i]) ==> s.batch[j] == rows[i] && j < m
    ensures s.Outcome(rows)[i]
         == Puts(rows, s.batch[..m], SettleEdits(s.terms, s.HashAt(s.LastSettling(s.VisitedFrom(0)))))[i]
  {
    var hash := s.HashAt(s.LastSettling(s.VisitedFrom(0)));
    var f := SettleEdits(s.terms, hash);
    var j := Position(s.batch, KeyOf(rows[i]));
    if j < 0 {
      PutsMisses(rows, s.batch[..m], f, i);
    } else {
      forall k | 0 <= k < m && k != j ensures KeyOf(s.batch[..m][k]) != KeyOf(rows[i]) {
        s.PositionIsUnique(k);
      }
      PutsHits(rows, s.batch[..m], f, i, j);
      SettledTwice(rows[i], s.terms, hash);
    }
  }

  lemma SettledTwice(t: Tx, terms: Terms, hash: string)
    ensures EditedAll(t, SettleEdits(terms, hash)(t))
         == t.(commission := terms.Commission(t), status := Settled, hash3 := hash)
  {
    var first, second := [Process(t.hash2, terms.Commission(t))], [Settle(hash)];
    EditedAllTwo(t, first, second);
    assert SettleEdits(terms, hash)(t) == first + second;
  }

  lemma {:induction false} FetchSplits(rows: seq<Tx>, n: nat, q: Query, limit: nat)
    requires n <= |rows|
    ensures var front := Fetch(rows[..n], q, limit);
            Fetch(rows, q, limit) == front + Fetch(rows[n..], q, limit - |front|)
  {
    if n == 0 || limit == 0 {
      assert rows[0..] == rows;
    } else {
      assert rows[..n][1..] == rows[1..][..n - 1] && rows[1..][n - 1..] == rows[n..];
      FetchSplits(rows[1..], n - 1, q, if Matches(rows[0], q) then limit - 1 else limit);
    }
  }

  lemma {:induction false} WalkSplits(rows: seq<Tx>, n: nat, q: Query, limit: nat, f: Tx -> seq<Edit>)
    requires n <= |rows|
    ensures Walk(rows, q, limit, f)[..n] == Walk(rows[..n], q, limit, f)
  {
    if n > 0 && limit > 0 {
      assert rows[..n][1..] == rows[1..][..n - 1];
      var hit := Matches(rows[0], q);
      var limit' := if hit then limit - 1 else limit;
      WalkSplits(rows[1..], n - 1, q, limit', f);
      var head := [if hit then EditedAll(rows[0], f(rows[0])) else rows[0]];
      assert Walk(rows, q, limit, f) == head + Walk(rows[1..], q, limit', f);
      assert (head + Walk(rows[1..], q, limit', f))[..n] == head + Walk(rows[1..], q, limit', f)[..n - 1];
    }
  }

  /** A fetched deposit that is among the first `n` rows is in the front part of the batch. */
  lemma FetchedFromFront(rows: seq<Tx>, n: nat, q: Query, limit: nat, i: nat, j: nat)
    requires UniqueGuids(rows) && i < n <= |rows| && j < |Fetch(rows, q, limit)|
    requires KeyOf(Fetch(rows, q, limit)[j]) == KeyOf(rows[i])
    ensures Fetch(rows, q, limit)[j] == rows[i] && j < |Fetch(rows[..n], q, limit)|
  {
    FetchedCopyIsTheRow(rows, q, limit, i, j);
    FetchSplits(rows, n, q, limit);
    var batch, m := Fetch(rows, q, limit), |Fetch(rows[..n], q, limit)|;
    FetchMembers(rows[n..], q, limit - m);
    forall k | m <= k < |batch| ensures batch[k] != rows[i] {
      assert batch[k] in rows[n..];
      var x :| n <= x < |rows| && rows[x] == batch[k];
      assert rows[i].guid != rows[x].guid;
    }
  }

  /** A settlement phase in which nothing fails settles the good deposits among the first `n` rows in one ordered
      pass, whatever deposits come after them. */
  lemma GoodSettlePhaseIsWalk(rows: seq<Tx>, n: nat, p: Pair, terms: Terms, a: DepositAnswers) returns (hash: string)
    requires UniqueGuids(rows) && n <= |rows| && Profitable(rows[..n], p, terms) && AllSucceed(a)
    ensures hash != ""
    ensures SettlePhase(rows, p, terms, a.settle)[..n]
         == Walk(rows[..n], QueryOf(p, Processed), BATCH_LIMIT, SettleEdits(terms, hash))
  {
    var q, front := QueryOf(p, Processed), rows[..n];
    var s := Settlement(DepositBatch(rows, p, Processed), terms, a.settle);
    var m := |Fetch(front, q, BATCH_LIMIT)|;
    FetchSplits(rows, n, q, BATCH_LIMIT);
    FetchHasUniqueGuids(rows, q, BATCH_LIMIT);
    FrontOfBatch(rows, n, p, terms);
    if m == 0 {
      hash := "none";
      forall i | 0 <= i < n ensures s.Outcome(rows)[i] == rows[i] {
        if j :| 0 <= j < |s.batch| && KeyOf(s.batch[j]) == KeyOf(rows[i]) {
          FetchedFromFront(rows, n, q, BATCH_LIMIT, i, j);
        }
      }
      assert Fetch(front, q, BATCH_LIMIT) == [];
      assert SettlePhase(rows, p, terms, a.settle)[..n] == Puts(front, [], SettleEdits(terms, hash));
    } else {
      GoodFrontSettles(s, m);
      hash := s.HashAt(s.LastSettling(s.VisitedFrom(0)));
      assert a.settle.broadcast(s.LastSettling(s.VisitedFrom(0))).value != "";
      GoodOutcome(rows, n, p, s, m, hash);
    }
    PutsOfFetchIsWalk(front, q, BATCH_LIMIT, SettleEdits(terms, hash));
  }

  lemma FrontOfBatch(rows: seq<Tx>, n: nat, p: Pair, terms: Terms)
    requires n <= |rows| && Profitable(rows[..n], p, terms)
    ensures var front := Fetch(rows[..n], QueryOf(p, Processed), BATCH_LIMIT);
            forall j :: 0 <= j < |front| ==> GoodNet(front[j], terms)
  {
    var front := Fetch(rows[..n], QueryOf(p, Processed), BATCH_LIMIT);
    FetchMembers(rows[..n], QueryOf(p, Processed), BATCH_LIMIT);
    forall j | 0 <= j < |front| ensures GoodNet(front[j], terms) {
      var k :| 0 <= k < n && rows[..n][k] == front[j];
      assert Mine(rows[..n][k], p);
    }
  }

  lemma GoodOutcome(rows: seq<Tx>, n: nat, p: Pair, s: Settlement, m: nat, hash: string)
    requires UniqueGuids(rows) && n <= |rows| && s.batch == DepositBatch(rows, p, Processed) && UniqueGuids(s.batch)
    requires m == |Fetch(rows[..n], QueryOf(p, Processed), BATCH_LIMIT)| && 0 < m <= |s.batch|
    requires s.batch[..m] == Fetch(rows[..n], QueryOf(p, Processed), BATCH_LIMIT)
    requires s.VisitedFrom(0) >= m && s.LastSettling(s.VisitedFrom(0)) >= m - 1
    requires hash == s.HashAt(s.LastSettling(s.VisitedFrom(0)))
    ensures s.Outcome(rows)[..n] == Puts(rows[..n], s.batch[..m], SettleEdits(s.terms, hash))
  {
    var f := SettleEdits(s.terms, hash);
    forall i | 0 <= i < n ensures s.Outcome(rows)[i] == Puts(rows[..n], s.batch[..m], f)[i] {
      forall j | 0 <= j < |s.batch| && KeyOf(s.batch[j]) == KeyOf(rows[i]) ensures s.batch[j] == rows[i] && j < m {
        FetchedFromFront(rows, n, QueryOf(p, Processed), BATCH_LIMIT, i, j);
      }
      SettledRow(s, rows, m, i);
      PutsIsPointwise(rows, s.batch[..m], f, i);
      PutsIsPointwise(rows[..n], s.batch[..m], f, i);
    }
  }

  /** Calls still needed for a deposit of the pair: broadcast, confirm, settle, confirm. */
  function Stage(t: Tx, p: Pair): nat {
    if !Mine(t, p) then 0
    else
      match t.status
      case Init => if t.hash2 == "" then 4 else 3
      case Processed => 2
      case Settled => 1
      case Done => 0
      case Rejected => 0
  }

  function StageSum(rows: seq<Tx>, p: Pair): nat {
    if rows == [] then 0 else Stage(rows[0], p) + StageSum(rows[1..], p)
  }

  /** A deposit that can still move: a settled one carries a settlement hash. */
  predicate Healthy(t: Tx, p: Pair) {
    Mine(t, p) && t.status == Settled ==> t.hash3 != ""
  }

  ghost predicate AllHealthy(rows: seq<Tx>, p: Pair) {
    forall i :: 0 <= i < |rows| ==> Healthy(rows[i], p)
  }

  ghost predicate Lowers(p: Pair, q: Query, f: Tx -> seq<Edit>) {
    forall t :: Matches(t, q) && Healthy(t, p) ==>
      Stage(EditedAll(t, f(t)), p) < Stage(t, p) && Healthy(EditedAll(t, f(t)), p)
  }

  /** A phase that lowers what it touches lowers the total, unless nothing matches its query. */
  lemma {:induction false} WalkLowers(rows: seq<Tx>, p: Pair, q: Query, limit: nat, f: Tx -> seq<Edit>)
    requires limit > 0 && Lowers(p, q, f) && AllHealthy(rows, p)
    ensures AllHealthy(Walk(rows, q, limit, f), p)
    ensures StageSum(Walk(rows, q, limit, f), p) <= StageSum(rows, p)
    ensures StageSum(Walk(rows, q, limit, f), p) == StageSum(rows, p) ==>
              Walk(rows, q, limit, f) == rows && forall i :: 0 <= i < |rows| ==> !Matches(rows[i], q)
  {
    if rows != [] {
      assert Healthy(rows[0], p);
      if !Matches(rows[0], q) {
        WalkLowers(rows[1..], p, q, limit, f);
      } else if limit > 1 {
        WalkLowers(rows[1..], p, q, limit - 1, f);
      }
    }
  }

  lemma InitLowers(p: Pair, a: DepositAnswers)
    requires AllSucceed(a)
    ensures Lowers(p, QueryOf(p, Init), InitEdits(a.init))
  {
    forall t | Matches(t, QueryOf(p, Init))
      ensures var t' := EditedAll(t, InitEdits(a.init)(t)); Stage(t', p) < Stage(t, p) && Healthy(t', p)
    {
      assert a.init(t.guid).transfer.value != "";
      EditedAllOne(t, InitEdit(t, a.init(t.guid)));
    }
  }

  lemma SettleLowers(p: Pair, terms: Terms, hash: string)
    requires hash != ""
    ensures Lowers(p, QueryOf(p, Processed), SettleEdits(terms, hash))
  {
    forall t | Matches(t, QueryOf(p, Processed))
      ensures var t' := EditedAll(t, SettleEdits(terms, hash)(t)); Stage(t', p) < Stage(t, p) && Healthy(t', p)
    {
      SettledTwice(t, terms, hash);
    }
  }

  lemma DoneLowers(p: Pair, a: DepositAnswers)
    requires AllSucceed(a)
    ensures Lowers(p, QueryOf(p, Settled), DoneEdits(a.done))
  {
    forall t | Matches(t, QueryOf(p, Settled)) && Healthy(t, p)
      ensures var t' := EditedAll(t, DoneEdits(a.done)(t)); Stage(t', p) < Stage(t, p) && Healthy(t', p)
    {
      EditedAllOne(t, DoneEdit(t, a.done(t.guid)));
    }
  }

  lemma ProfitableStays(rows: seq<Tx>, rows': seq<Tx>, p: Pair, terms: Terms)
    requires Profitable(rows, p, terms) && |rows| == |rows'|
    requires forall i :: 0 <= i < |rows| ==> SameIdentity(rows[i], rows'[i]) && (Final(rows[i]) ==> Final(rows'[i]))
    ensures Profitable(rows', p, terms)
  {
    forall i | 0 <= i < |rows'| && Mine(rows'[i], p) && !Final(rows'[i]) ensures GoodNet(rows'[i], terms) {
      assert SameIdentity(rows[i], rows'[i]);
      assert Mine(rows[i], p) && terms.Net(rows[i]) == terms.Net(rows'[i]);
    }
  }

  lemma {:induction false} WalkKeepsRows(rows: seq<Tx>, q: Query, limit: nat, f: Tx -> seq<Edit>)
    ensures SameRows(rows, Walk(rows, q, limit, f))
  {
    forall i | 0 <= i < |rows| ensures SameIdentity(rows[i], Walk(rows, q, limit, f)[i]) {
      WalkAt(rows, q, limit, f, i);
      EditedAllKeepsIdentity(rows[i], f(rows[i]));
    }
  }

  /** With nothing failing, one pass of the pair is three ordered passes over the first `n` rows, as far as the pair's
      deposits among them are concerned. */
  lemma GoodPassIsWalks(rows: seq<Tx>, n: nat, pass: Pass)
    returns (hash: string, front1: seq<Tx>, front2: seq<Tx>, front3: seq<Tx>)
    requires UniqueGuids(rows) && n <= |rows| && AllSucceed(pass.outcomes.deposit)
    requires Profitable(rows[..n], pass.pair, pass.terms)
    ensures var p, a := pass.pair, pass.outcomes.deposit;
            && hash != ""
            && front1 == Walk(rows[..n], QueryOf(p, Init), BATCH_LIMIT, InitEdits(a.init))
            && front2 == Walk(front1, QueryOf(p, Processed), BATCH_LIMIT, SettleEdits(pass.terms, hash))
            && front3 == Walk(front2, QueryOf(p, Settled), BATCH_LIMIT, DoneEdits(a.done))
            && |Apply(rows, pass)| == |rows| && SameMine(front3, Apply(rows, pass)[..n], p)
  {
    var p, a := pass.pair, pass.outcomes.deposit;
    var rows1 := InitPhase(rows, p, a.init);
    PutsOfFetchIsWalk(rows, QueryOf(p, Init), BATCH_LIMIT, InitEdits(a.init));
    WalkSplits(rows, n, QueryOf(p, Init), BATCH_LIMIT, InitEdits(a.init));
    forall i | 0 <= i < |rows| ensures SameIdentity(rows[i], rows1[i]) && (Final(rows[i]) ==> Final(rows1[i])) {
      InitPhaseAt(rows, p, a.init, i);
    }
    SameRowsKeepGuids(rows, rows1);
    front1 := rows1[..n];
    FrontProfitable(rows, rows1, n, p, pass.terms);
    var rows2 := SettlePhase(rows1, p, pass.terms, a.settle);
    hash := GoodSettlePhaseIsWalk(rows1, n, p, pass.terms, a);
    front2 := rows2[..n];
    SettlePhaseKeepsRows(rows1, p, pass.terms, a.settle);
    PutsOfFetchIsWalk(rows2, QueryOf(p, Settled), BATCH_LIMIT, DoneEdits(a.done));
    WalkSplits(rows2, n, QueryOf(p, Settled), BATCH_LIMIT, DoneEdits(a.done));
    var rows3 := DonePhase(rows2, p, a.done);
    WalkKeepsRows(rows2, QueryOf(p, Settled), BATCH_LIMIT, DoneEdits(a.done));
    SameRowsKeepGuids(rows2, rows3);
    front3 := rows3[..n];
    WithdrawPhasesKeepMine(rows3, pass, p);
    SameMineFront(rows3, Apply(rows, pass), n, p);
  }

  lemma SettlePhaseKeepsRows(rows: seq<Tx>, p: Pair, terms: Terms, answers: Answers)
    requires UniqueGuids(rows)
    ensures SameRows(rows, SettlePhase(rows, p, terms, answers)) && UniqueGuids(SettlePhase(rows, p, terms, answers))
  {
    forall i | 0 <= i < |rows| ensures SameIdentity(rows[i], SettlePhase(rows, p, terms, answers)[i]) {
      SettlePhaseAt(rows, p, terms, answers, i);
    }
    SameRowsKeepGuids(rows, SettlePhase(rows, p, terms, answers));
  }

  lemma FrontProfitable(rows: seq<Tx>, rows': seq<Tx>, n: nat, p: Pair, terms: Terms)
    requires n <= |rows| <= |rows'| && Profitable(rows[..n], p, terms)
    requires forall i :: 0 <= i < n ==> SameIdentity(rows[i], rows'[i]) && (Final(rows[i]) ==> Final(rows'[i]))
    ensures Profitable(rows'[..n], p, terms)
  {
    forall i | 0 <= i < n
      ensures SameIdentity(rows[..n][i], rows'[..n][i]) && (Final(rows[..n][i]) ==> Final(rows'[..n][i]))
    {
      assert SameIdentity(rows[i], rows'[i]);
    }
    ProfitableStays(rows[..n], rows'[..n], p, terms);
  }

  lemma SameMineFront(rows: seq<Tx>, rows': seq<Tx>, n: nat, p: Pair)
    requires SameMine(rows, rows', p) && n <= |rows|
    ensures SameMine(rows[..n], rows'[..n], p)
  {
    forall i | 0 <= i < n
      ensures SameIdentity(rows[..n][i], rows'[..n][i]) && (Mine(rows[..n][i], p) ==> rows'[..n][i] == rows[..n][i])
    {
      assert SameIdentity(rows[i], rows'[i]);
    }
  }

  ghost predicate AllFinal(rows: seq<Tx>, p: Pair) {
    forall i :: 0 <= i < |rows| && Mine(rows[i], p) ==> Final(rows[i])
  }

  /** The termination measure: among any `n` oldest rows, healthy and profitable ones, a good pass of the pair
      strictly lowers the stage sum until all of the pair's deposits among them are final. */
  lemma StageSumDrops(rows: seq<Tx>, n: nat, pass: Pass)
    requires UniqueGuids(rows) && n <= |rows| && AllSucceed(pass.outcomes.deposit)
    requires Profitable(rows[..n], pass.pair, pass.terms) && AllHealthy(rows[..n], pass.pair)
    ensures |Apply(rows, pass)| == |rows| && AllHealthy(Apply(rows, pass)[..n], pass.pair)
    ensures || AllFinal(rows[..n], pass.pair)
            || StageSum(Apply(rows, pass)[..n], pass.pair) < StageSum(rows[..n], pass.pair)
  {
    var p, front := pass.pair, rows[..n];
    var hash, front1, front2, front3 := GoodPassIsWalks(rows, n, pass);
    WalksLower(front, front1, front2, p, pass.terms, hash, pass.outcomes.deposit);
    SameMineStages(front3, Apply(rows, pass)[..n], p);
  }

  lemma WalksLower(front: seq<Tx>, front1: seq<Tx>, front2: seq<Tx>, p: Pair, terms: Terms, hash: string,
                   a: DepositAnswers)
    requires AllHealthy(front, p) && hash != "" && AllSucceed(a)
    requires front1 == Walk(front, QueryOf(p, Init), BATCH_LIMIT, InitEdits(a.init))
    requires front2 == Walk(front1, QueryOf(p, Processed), BATCH_LIMIT, SettleEdits(terms, hash))
    ensures var front3 := Walk(front2, QueryOf(p, Settled), BATCH_LIMIT, DoneEdits(a.done));
            AllHealthy(front3, p) && (AllFinal(front, p) || StageSum(front3, p) < StageSum(front, p))
  {
    var front3 := Walk(front2, QueryOf(p, Settled), BATCH_LIMIT, DoneEdits(a.done));
    InitLowers(p, a);
    WalkLowers(front, p, QueryOf(p, Init), BATCH_LIMIT, InitEdits(a.init));
    SettleLowers(p, terms, hash);
    WalkLowers(front1, p, QueryOf(p, Processed), BATCH_LIMIT, SettleEdits(terms, hash));
    DoneLowers(p, a);
    WalkLowers(front2, p, QueryOf(p, Settled), BATCH_LIMIT, DoneEdits(a.done));
    if StageSum(front3, p) == StageSum(front, p) {
      forall i | 0 <= i < |front| && Mine(front[i], p) ensures Final(front[i]) {
        assert !Matches(front[i], QueryOf(p, Init)) && !Matches(front1[i], QueryOf(p, Processed))
            && !Matches(front2[i], QueryOf(p, Settled));
      }
    }
  }

  lemma {:induction false} SameMineStages(rows: seq<Tx>, rows': seq<Tx>, p: Pair)
    requires SameMine(rows, rows', p)
    ensures StageSum(rows', p) == StageSum(rows, p) && (AllHealthy(rows, p) ==> AllHealthy(rows', p))
  {
    if rows != [] {
      assert SameIdentity(rows[0], rows'[0]);
      SameMineStages(rows[1..], rows'[1..], p);
      assert AllHealthy(rows, p) ==> AllHealthy(rows[1..], p);
      assert forall i :: 0 < i < |rows| ==> rows'[i] == rows'[1..][i - 1];
    }
  }

  /** Oldest first: the first `k` unfinished deposits of the pair are broadcast, the others are fresh. */
  predicate Shape(rows: seq<Tx>, p: Pair, k: nat) {
    rows == [] ||
    if !Mine(rows[0], p) || Final(rows[0]) then Shape(rows[1..], p, k)
    else
      && rows[0].status == Init
      && (rows[0].hash2 == "" <==> k == 0)
      && Shape(rows[1..], p, if k == 0 then 0 else k - 1)
  }

  function Unfinished(rows: seq<Tx>, p: Pair): nat {
    if rows == [] then 0
    else (if Mine(rows[0], p) && !Final(rows[0]) then 1 else 0) + Unfinished(rows[1..], p)
  }

  /** An odd tick broadcasts the first `k` fresh deposits; there is nothing to settle or confirm. */
  lemma {:induction false} BroadcastTick(rows: seq<Tx>, p: Pair, k: nat, a: DepositAnswers)
    requires Shape(rows, p, 0) && AllSucceed(a)
    ensures var rows' := Walk(rows, QueryOf(p, Init), k, InitEdits(a.init));
            && Shape(rows', p, k) && Unfinished(rows', p) == Unfinished(rows, p)
            && forall i :: 0 <= i < |rows'| ==>
                 !Matches(rows'[i], QueryOf(p, Processed)) && !Matches(rows'[i], QueryOf(p, Settled))
  {
    if rows != [] {
      if Matches(rows[0], QueryOf(p, Init)) && k > 0 {
        BroadcastTick(rows[1..], p, k - 1, a);
        assert a.init(rows[0].guid).transfer.value != "";
        EditedAllOne(rows[0], InitEdit(rows[0], a.init(rows[0].guid)));
      } else {
        BroadcastTick(rows[1..], p, k, a);
      }
    }
    NothingToFetch(Walk(rows, QueryOf(p, Init), k, InitEdits(a.init)), p, k);
  }

  lemma {:induction false} NothingToFetch(rows: seq<Tx>, p: Pair, k: nat)
    requires Shape(rows, p, k)
    ensures forall i :: 0 <= i < |rows| ==>
              !Matches(rows[i], QueryOf(p, Processed)) && !Matches(rows[i], QueryOf(p, Settled))
  {
    if rows != [] {
      if !Mine(rows[0], p) || Final(rows[0]) {
        NothingToFetch(rows[1..], p, k);
      } else {
        NothingToFetch(rows[1..], p, if k == 0 then 0 else k - 1);
      }
    }
  }

  function Three(rows: seq<Tx>, p: Pair, k: nat, f: Tx -> seq<Edit>, g: Tx -> seq<Edit>, h: Tx -> seq<Edit>): seq<Tx> {
    Walk(Walk(Walk(rows, QueryOf(p, Init), k, f), QueryOf(p, Processed), k, g), QueryOf(p, Settled), k, h)
  }

  lemma ConfirmedInit(t: Tx, a: DepositAnswers)
    requires t.hash2 != "" && AllSucceed(a)
    ensures EditedAll(t, InitEdits(a.init)(t)) == t.(status := Processed, commission := 0.0)
  {
    EditedAllOne(t, InitEdit(t, a.init(t.guid)));
  }

  lemma ConfirmedDone(t: Tx, a: DepositAnswers)
    requires t.hash3 != "" && AllSucceed(a)
    ensures EditedAll(t, DoneEdits(a.done)(t)) == t.(status := Done, hash5 := "")
  {
    EditedAllOne(t, DoneEdit(t, a.done(t.guid)));
  }

  lemma Confirmed(t: Tx, p: Pair, a: DepositAnswers, terms: Terms, hash: string)
    requires Mine(t, p) && t.status == Init && t.hash2 != "" && AllSucceed(a) && hash != ""
    ensures var t1 := EditedAll(t, InitEdits(a.init)(t));
            var t2 := EditedAll(t1, SettleEdits(terms, hash)(t1));
            var t3 := EditedAll(t2, DoneEdits(a.done)(t2));
            && Matches(t, QueryOf(p, Init)) && Matches(t1, QueryOf(p, Processed)) && Matches(t2, QueryOf(p, Settled))
            && Mine(t3, p) && t3.status == Done
  {
    ConfirmedInit(t, a);
    SettledTwice(EditedAll(t, InitEdits(a.init)(t)), terms, hash);
    var t1 := EditedAll(t, InitEdits(a.init)(t));
    ConfirmedDone(t1.(commission := terms.Commission(t), status := Settled, hash3 := hash), a);
  }

  /** The three walks of a tick treat a broadcast deposit at the head like this. */
  lemma ThreeAtHead(rows: seq<Tx>, p: Pair, k: nat, a: DepositAnswers, terms: Terms, hash: string)
    returns (rows': seq<Tx>)
    requires rows != [] && k > 0 && AllSucceed(a) && hash != ""
    requires Mine(rows[0], p) && rows[0].status == Init && rows[0].hash2 != ""
    ensures var f, g, h := InitEdits(a.init), SettleEdits(terms, hash), DoneEdits(a.done);
            && rows' == Three(rows, p, k, f, g, h)
            && rows' != [] && Mine(rows'[0], p) && rows'[0].status == Done
            && rows'[1..] == Three(rows[1..], p, k - 1, f, g, h)
  {
    rows' := Three(rows, p, k, InitEdits(a.init), SettleEdits(terms, hash), DoneEdits(a.done));
    Confirmed(rows[0], p, a, terms, hash);
  }

  /** … and one that is somebody else's or final, or for which no room is left, like that. */
  lemma ThreePassOver(rows: seq<Tx>, p: Pair, k: nat, f: Tx -> seq<Edit>, g: Tx -> seq<Edit>, h: Tx -> seq<Edit>)
    requires rows != [] && (!Mine(rows[0], p) || Final(rows[0]) || k == 0)
    ensures Three(rows, p, k, f, g, h) == [rows[0]] + Three(rows[1..], p, k, f, g, h)
  {
    if k == 0 {
      assert [rows[0]] + rows[1..] == rows;
    }
  }

  /** The first `k` unfinished deposits are done and no other is touched. */
  predicate FirstDone(rows: seq<Tx>, rows': seq<Tx>, p: Pair, k: nat) {
    Shape(rows', p, 0) && Unfinished(rows', p) == if Unfinished(rows, p) > k then Unfinished(rows, p) - k else 0
  }

  lemma DoneAtHead(rows: seq<Tx>, rows': seq<Tx>, rest': seq<Tx>, p: Pair, k: nat)
    requires rows != [] && rows' != [] && k > 0 && rows'[1..] == rest'
    requires Mine(rows[0], p) && !Final(rows[0]) && Mine(rows'[0], p) && rows'[0].status == Done
    requires FirstDone(rows[1..], rest', p, k - 1)
    ensures FirstDone(rows, rows', p, k)
  {
  }

  lemma KeptAtHead(rows: seq<Tx>, rest': seq<Tx>, p: Pair, k: nat)
    requires rows != [] && Shape(rows, p, k) && FirstDone(rows[1..], rest', p, k)
    requires !Mine(rows[0], p) || Final(rows[0]) || k == 0
    ensures FirstDone(rows, [rows[0]] + rest', p, k)
  {
    assert ([rows[0]] + rest')[1..] == rest';
  }

  /** An even tick takes exactly the broadcast deposits all the way to `done`. */
  lemma {:induction false} ConfirmTick(rows: seq<Tx>, p: Pair, k: nat, a: DepositAnswers, terms: Terms, hash: string)
    requires Shape(rows, p, k) && AllSucceed(a) && hash != ""
    ensures FirstDone(rows, Three(rows, p, k, InitEdits(a.init), SettleEdits(terms, hash), DoneEdits(a.done)), p, k)
  {
    if rows != [] {
      var f, g, h := InitEdits(a.init), SettleEdits(terms, hash), DoneEdits(a.done);
      if !Mine(rows[0], p) || Final(rows[0]) || k == 0 {
        ConfirmTick(rows[1..], p, k, a, terms, hash);
        ThreePassOver(rows, p, k, f, g, h);
        KeptAtHead(rows, Three(rows[1..], p, k, f, g, h), p, k);
      } else {
        ConfirmTick(rows[1..], p, k - 1, a, terms, hash);
        var rows' := ThreeAtHead(rows, p, k, a, terms, hash);
        DoneAtHead(rows, rows', Three(rows[1..], p, k - 1, f, g, h), p, k);
      }
    }
  }

  lemma {:induction false} WalkOfNothing(rows: seq<Tx>, q: Query, limit: nat, f: Tx -> seq<Edit>)
    requires forall i :: 0 <= i < |rows| ==> !Matches(rows[i], q)
    ensures Walk(rows, q, limit, f) == rows
  {
    if rows != [] {
      WalkOfNothing(rows[1..], q, limit, f);
    }
  }

  lemma {:induction false} SameMineShape(rows: seq<Tx>, rows': seq<Tx>, p: Pair, k: nat)
    requires SameMine(rows, rows', p)
    ensures Shape(rows', p, k) == Shape(rows, p, k) && Unfinished(rows', p) == Unfinished(rows, p)
  {
    if rows != [] {
      assert SameIdentity(rows[0], rows'[0]);
      var skipped := !Mine(rows[0], p) || Final(rows[0]);
      SameMineShape(rows[1..], rows'[1..], p, if skipped then k else if k == 0 then 0 else k - 1);
    }
  }

  // Runs.

  predicate IsOwn(s: Step, p: Pair) {
    s.TickPass? && s.pass.pair == p
  }

  /** The passes of the pair in a run; a tick has one. */
  function OwnPasses(steps: seq<Step>, p: Pair): nat {
    if steps == [] then 0
    else (if IsOwn(steps[0], p) then 1 else 0) + OwnPasses(steps[1..], p)
  }

  /** Nothing fails for the pair's deposits; whatever happens to others. */
  ghost predicate NothingFails(steps: seq<Step>, p: Pair) {
    forall k :: 0 <= k < |steps| && IsOwn(steps[k], p) ==> AllSucceed(steps[k].pass.outcomes.deposit)
  }

  function TicksNeeded(n: nat): nat {
    if n == 0 then 0 else 2 + TicksNeeded(if n > BATCH_LIMIT then n - BATCH_LIMIT else 0)
  }

  /** Two for every batch of `n` deposits, a last partial one included. */
  function TwoPerBatch(n: nat): nat {
    2 * ((n + BATCH_LIMIT - 1) / BATCH_LIMIT)
  }

  lemma {:induction false} TicksNeededIsTwoPerBatch(n: nat)
    ensures TicksNeeded(n) == TwoPerBatch(n)
  {
    if n > BATCH_LIMIT {
      TicksNeededIsTwoPerBatch(n - BATCH_LIMIT);
    }
  }

  /** The passes still needed: one less when the first batch is broadcast already. */
  function PassesNeeded(n: nat, broadcast: bool): nat {
    if n == 0 then 0 else if broadcast then TicksNeeded(n) - 1 else TicksNeeded(n)
  }

  /** The first `n` rows are on their way: the oldest batch is broadcast, or nothing is. */
  ghost predicate OnTheWay(rows: seq<Tx>, n: nat, p: Pair, terms: Terms, broadcast: bool) {
    && UniqueGuids(rows) && n <= |rows| && Profitable(rows[..n], p, terms)
    && Shape(rows[..n], p, if broadcast then BATCH_LIMIT else 0)
  }

  /** One pass of the pair goes half the way of a batch. */
  lemma OwnPassAdvances(rows: seq<Tx>, n: nat, pass: Pass, broadcast: bool)
    requires OnTheWay(rows, n, pass.pair, pass.terms, broadcast) && AllSucceed(pass.outcomes.deposit)
    ensures var rows', p, u := Apply(rows, pass), pass.pair, Unfinished(rows[..n], pass.pair);
            && OnTheWay(rows', n, p, pass.terms, !broadcast)
            && Unfinished(rows'[..n], p) == if !broadcast then u else if u > BATCH_LIMIT then u - BATCH_LIMIT else 0
  {
    var p, a, front := pass.pair, pass.outcomes.deposit, rows[..n];
    var hash, front1, front2, front3 := GoodPassIsWalks(rows, n, pass);
    if broadcast {
      ConfirmTick(front, p, BATCH_LIMIT, a, pass.terms, hash);
    } else {
      BroadcastTick(front, p, BATCH_LIMIT, a);
      WalkOfNothing(front1, QueryOf(p, Processed), BATCH_LIMIT, SettleEdits(pass.terms, hash));
      WalkOfNothing(front1, QueryOf(p, Settled), BATCH_LIMIT, DoneEdits(a.done));
    }
    SameMineShape(front3, Apply(rows, pass)[..n], p, if broadcast then 0 else BATCH_LIMIT);
    PassNeverGoesBack(rows, pass);
    forall i | 0 <= i < n
      ensures SameIdentity(rows[i], Apply(rows, pass)[i]) && (Final(rows[i]) ==> Final(Apply(rows, pass)[i]))
    {
      assert NeverBack(rows[i], Apply(rows, pass)[i]);
    }
    FrontProfitable(rows, Apply(rows, pass), n, p, pass.terms);
  }

  /** Every other step leaves the pair's deposits among the first `n` rows alone. */
  lemma OtherStepKeeps(rows: seq<Tx>, n: nat, s: Step, p: Pair, terms: Terms, broadcast: bool)
    requires OnTheWay(rows, n, p, terms, broadcast) && ValidStep(rows, s, p, terms)
    requires !IsOwn(s, p)
    ensures OnTheWay(StepRows(rows, s), n, p, terms, broadcast)
    ensures Unfinished(StepRows(rows, s)[..n], p) == Unfinished(rows[..n], p)
  {
    var rows' := StepRows(rows, s);
    match s {
      case TickPass(pass) => OtherPassKeepsMine(rows, pass, p);
      case NewRow(t) => NewRowKeepsGuids(rows, t);
      case WithdrawApi(key, e) => ApiCallKeepsMine(rows, key, e, p);
    }
    if s.NewRow? {
      assert rows'[..n] == rows[..n];
    } else {
      SameMineFront(rows, rows', n, p);
      SameMineShape(rows[..n], rows'[..n], p, if broadcast then BATCH_LIMIT else 0);
      SameMineProfitable(rows[..n], rows'[..n], p, terms);
    }
  }

  lemma SameMineProfitable(rows: seq<Tx>, rows': seq<Tx>, p: Pair, terms: Terms)
    requires SameMine(rows, rows', p) && Profitable(rows, p, terms)
    ensures Profitable(rows', p, terms)
  {
    forall i | 0 <= i < |rows'| && Mine(rows'[i], p) && !Final(rows'[i]) ensures GoodNet(rows'[i], terms) {
      assert SameIdentity(rows[i], rows'[i]) && Mine(rows[i], p);
    }
  }

  lemma {:induction false} AllAreFinal(rows: seq<Tx>, p: Pair, k: nat)
    requires Shape(rows, p, k) && Unfinished(rows, p) == 0
    ensures AllFinal(rows, p)
  {
    if rows != [] {
      AllAreFinal(rows[1..], p, k);
    }
  }

  /** Half the way of a batch is one pass less to go. */
  lemma OnePassLess(u: nat, u': nat, broadcast: bool)
    requires u' == if !broadcast then u else if u > BATCH_LIMIT then u - BATCH_LIMIT else 0
    ensures PassesNeeded(u', !broadcast) <= if u == 0 then 0 else PassesNeeded(u, broadcast) - 1
  {
  }

  lemma OwnStepDrains(rows: seq<Tx>, n: nat, pass: Pass, broadcast: bool)
    requires OnTheWay(rows, n, pass.pair, pass.terms, broadcast) && AllSucceed(pass.outcomes.deposit)
    ensures OnTheWay(Apply(rows, pass), n, pass.pair, pass.terms, !broadcast)
    ensures var p := pass.pair;
            PassesNeeded(Unfinished(Apply(rows, pass)[..n], p), !broadcast)
            <= if Unfinished(rows[..n], p) == 0 then 0 else PassesNeeded(Unfinished(rows[..n], p), broadcast) - 1
  {
    OwnPassAdvances(rows, n, pass, broadcast);
    OnePassLess(Unfinished(rows[..n], pass.pair), Unfinished(Apply(rows, pass)[..n], pass.pair), broadcast);
  }

  lemma {:induction false} RunDrains(rows: seq<Tx>, n: nat, steps: seq<Step>, p: Pair, terms: Terms, broadcast: bool)
    requires OnTheWay(rows, n, p, terms, broadcast) && ValidRun(rows, steps, p, terms) && NothingFails(steps, p)
    requires OwnPasses(steps, p) >= PassesNeeded(Unfinished(rows[..n], p), broadcast)
    ensures |RunRows(rows, steps)| >= n && AllFinal(RunRows(rows, steps)[..n], p)
    decreases |steps|
  {
    if steps == [] {
      AllAreFinal(rows[..n], p, if broadcast then BATCH_LIMIT else 0);
    } else {
      LaterFails(steps, p);
      if IsOwn(steps[0], p) {
        OwnStepDrains(rows, n, steps[0].pass, broadcast);
        RunDrains(StepRows(rows, steps[0]), n, steps[1..], p, terms, !broadcast);
      } else {
        OtherStepKeeps(rows, n, steps[0], p, terms, broadcast);
        RunDrains(StepRows(rows, steps[0]), n, steps[1..], p, terms, broadcast);
      }
    }
  }

  lemma LaterFails(steps: seq<Step>, p: Pair)
    requires steps != [] && NothingFails(steps, p)
    ensures NothingFails(steps[1..], p)
  {
  }

  /** Nothing has been done about the deposits of the pair that are not final. */
  ghost predicate FreshOrFinal(rows: seq<Tx>, p: Pair) {
    forall i :: 0 <= i < |rows| && Mine(rows[i], p) && !Final(rows[i]) ==> rows[i].status == Init && rows[i].hash2 == ""
  }

  /** All of them are done, and the final ones as they were. */
  ghost predicate Drained(rows: seq<Tx>, rows': seq<Tx>, p: Pair) {
    && |rows'| >= |rows|
    && forall i :: 0 <= i < |rows| && Mine(rows[i], p) ==>
         if Final(rows[i]) then rows'[i] == rows[i] else SameIdentity(rows[i], rows'[i]) && rows'[i].status == Done
  }

  lemma {:induction false} FreshHasShape(rows: seq<Tx>, p: Pair)
    requires FreshOrFinal(rows, p)
    ensures Shape(rows, p, 0)
  {
    if rows != [] {
      FreshHasShape(rows[1..], p);
    }
  }

  /** No step rejects a deposit. */
  lemma {:induction false} RunRejectsNothing(rows: seq<Tx>, steps: seq<Step>, p: Pair, terms: Terms, i: nat)
    requires UniqueGuids(rows) && ValidRun(rows, steps, p, terms) && i < |rows| && Mine(rows[i], p)
    ensures var rows' := RunRows(rows, steps);
            && i < |rows'| && SameIdentity(rows[i], rows'[i])
            && (Final(rows[i]) ==> rows'[i] == rows[i]) && (rows'[i].status == Rejected ==> rows[i].status == Rejected)
    decreases |steps|
  {
    if steps != [] {
      var next := StepRows(rows, steps[0]);
      match steps[0] {
        case TickPass(pass) =>
          PassNeverGoesBack(rows, pass);
          assert NeverBack(rows[i], next[i]);
        case NewRow(t) => NewRowKeepsGuids(rows, t);
        case WithdrawApi(key, e) => ApiCallKeepsMine(rows, key, e, p);
      }
      RunRejectsNothing(next, steps[1..], p, terms, i);
    }
  }

  lemma FreshIsOnTheWay(rows: seq<Tx>, p: Pair, terms: Terms)
    requires UniqueGuids(rows) && Profitable(rows, p, terms) && FreshOrFinal(rows, p)
    ensures OnTheWay(rows, |rows|, p, terms, false)
    ensures PassesNeeded(Unfinished(rows[..|rows|], p), false) == TwoPerBatch(Unfinished(rows, p))
  {
    assert rows[..|rows|] == rows;
    FreshHasShape(rows, p);
    TicksNeededIsTwoPerBatch(Unfinished(rows, p));
  }

  lemma FinalIsDone(rows: seq<Tx>, steps: seq<Step>, p: Pair, terms: Terms, i: nat)
    requires UniqueGuids(rows) && ValidRun(rows, steps, p, terms) && i < |rows| && Mine(rows[i], p)
    requires |RunRows(rows, steps)| >= |rows| && AllFinal(RunRows(rows, steps)[..|rows|], p)
    ensures var row' := RunRows(rows, steps)[i];
            if Final(rows[i]) then row' == rows[i] else SameIdentity(rows[i], row') && row'.status == Done
  {
    RunRejectsNothing(rows, steps, p, terms, i);
    assert RunRows(rows, steps)[..|rows|][i] == RunRows(rows, steps)[i];
  }

  lemma FinalAreDrained(rows: seq<Tx>, steps: seq<Step>, p: Pair, terms: Terms)
    requires UniqueGuids(rows) && ValidRun(rows, steps, p, terms)
    requires |RunRows(rows, steps)| >= |rows| && AllFinal(RunRows(rows, steps)[..|rows|], p)
    ensures Drained(rows, RunRows(rows, steps), p)
  {
    var rows' := RunRows(rows, steps);
    forall i | 0 <= i < |rows| && Mine(rows[i], p)
      ensures if Final(rows[i]) then rows'[i] == rows[i] else SameIdentity(rows[i], rows'[i]) && rows'[i].status == Done
    {
      FinalIsDone(rows, steps, p, terms, i);
    }
  }

  /** The drain bound: whatever deposits are final already, whatever arrives and whatever is done for others meanwhile,
      the `n` fresh deposits of the pair are all `done` after 2 * ceil(n / 1000) of its passes, and stay so. */
  lemma DrainBound(rows: seq<Tx>, steps: seq<Step>, p: Pair, terms: Terms)
    requires UniqueGuids(rows) && Profitable(rows, p, terms)
    requires FreshOrFinal(rows, p)
    requires ValidRun(rows, steps, p, terms) && NothingFails(steps, p)
    requires OwnPasses(steps, p) >= TwoPerBatch(Unfinished(rows, p))
    ensures Drained(rows, RunRows(rows, steps), p)
  {
    FreshIsOnTheWay(rows, p, terms);
    RunDrains(rows, |rows|, steps, p, terms, false);
    FinalAreDrained(rows, steps, p, terms);
  }
}
