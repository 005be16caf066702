/** When the settlement of a merchant and blockchain is blocked for good, told from the net amounts in the table. */
module StallConditions {
  import opened Transactions
  import opened Ledger
  import opened Settlement
  import opened Deposits
  import opened Passes
  import opened Runs
  import opened Stall

  predicate IsInit(t: Tx, p: Pair) {
    Matches(t, QueryOf(p, Init))
  }

  predicate IsProcessed(t: Tx, p: Pair) {
    Matches(t, QueryOf(p, Processed))
  }

  /** A deposit of the pair that is not settled yet. */
  predicate Waiting(t: Tx, p: Pair) {
    IsInit(t, p) || IsProcessed(t, p)
  }

  /** What a waiting deposit takes the running total down to, at the lowest: a processed one counts in any case, an
      `init` one can be confirmed if it helps. */
  function LowNet(t: Tx, p: Pair, terms: Terms): real {
    if IsProcessed(t, p) || (IsInit(t, p) && terms.Net(t) <= 0.0) then terms.Net(t) else 0.0
  }

  /** The lowest running total that the deposits before `i` can be brought to. */
  function Low(rows: seq<Tx>, p: Pair, terms: Terms, i: nat): real
    requires i <= |rows|
  {
    if i == 0 then 0.0 else Low(rows, p, terms, i - 1) + LowNet(rows[i - 1], p, terms)
  }

  /** Whether a settlement of the rows from here on would settle something. */
  predicate Scan(rows: seq<Tx>, p: Pair, terms: Terms, limit: nat, running: real) {
    if rows == [] || limit == 0 then false
    else if IsProcessed(rows[0], p) then
      var total := running + terms.Net(rows[0]);
      if total > 0.0 then total >= terms.minimum else Scan(rows[1..], p, terms, limit - 1, total)
    else Scan(rows[1..], p, terms, limit, running)
  }

  lemma {:induction false} ScanIsCanSettle(rows: seq<Tx>, p: Pair, terms: Terms, limit: nat, running: real)
    ensures Scan(rows, p, terms, limit, running)
         == CanSettle(Fetch(rows, QueryOf(p, Processed), limit), terms, running)
  {
    if rows != [] && limit > 0 {
      if IsProcessed(rows[0], p) {
        ScanIsCanSettle(rows[1..], p, terms, limit - 1, running + terms.Net(rows[0]));
      } else {
        ScanIsCanSettle(rows[1..], p, terms, limit, running);
      }
    }
  }

  lemma ScanStep(rows: seq<Tx>, p: Pair, terms: Terms, i: nat, limit: nat, running: real)
    requires i < |rows| && limit > 0
    ensures var total := running + terms.Net(rows[i]);
            Scan(rows[i..], p, terms, limit, running)
            == if !IsProcessed(rows[i], p) then Scan(rows[i + 1..], p, terms, limit, running)
               else if total > 0.0 then total >= terms.minimum
               else Scan(rows[i + 1..], p, terms, limit - 1, total)
  {
    assert rows[i..][0] == rows[i] && rows[i..][1..] == rows[i + 1..];
  }

  // Blocked: the running total cannot be kept down past deposit `c`, and no single deposit up to there makes the jump.

  ghost predicate Blocked(rows: seq<Tx>, p: Pair, terms: Terms, c: nat) {
    && c < |rows| && Low(rows, p, terms, c + 1) > 0.0
    && forall k :: 0 <= k <= c && Waiting(rows[k], p) ==> terms.Net(rows[k]) < terms.minimum
  }

  /** What has become of row `i` takes the running total no further down than its lowest, and makes no jump. */
  predicate KeptUp(rows: seq<Tx>, t: Tx, p: Pair, terms: Terms, i: nat)
    requires i < |rows|
  {
    if IsProcessed(t, p) then terms.Net(t) < terms.minimum && LowNet(rows[i], p, terms) <= terms.Net(t)
    else LowNet(rows[i], p, terms) <= 0.0
  }

  lemma PossibleIsKeptUp(rows: seq<Tx>, next: seq<Tx>, p: Pair, terms: Terms, c: nat)
    requires Blocked(rows, p, terms, c) && Possible(rows, next, p)
    ensures forall i :: 0 <= i <= c ==> KeptUp(rows, next[i], p, terms, i)
  {
    forall i | 0 <= i <= c ensures KeptUp(rows, next[i], p, terms, i) {
      assert SameIdentity(rows[i], next[i]) && (Mine(next[i], p) ==> MayBecome(rows, next, p, i));
      assert terms.Net(rows[i]) == terms.Net(next[i]);
    }
  }

  /** The running total stays above the lowest one. */
  lemma {:induction false} KeptUpScan(rows: seq<Tx>, next: seq<Tx>, p: Pair, terms: Terms, c: nat, i: nat, limit: nat,
                                      running: real)
    requires c < |rows| <= |next| && Low(rows, p, terms, c + 1) > 0.0
    requires forall k :: 0 <= k <= c ==> KeptUp(rows, next[k], p, terms, k)
    requires i <= c + 1 && Low(rows, p, terms, i) <= running <= 0.0
    ensures !Scan(next[i..], p, terms, limit, running)
    decreases c + 1 - i
  {
    if i <= c && limit > 0 {
      ScanStep(next, p, terms, i, limit, running);
      assert KeptUp(rows, next[i], p, terms, i);
      var total := running + terms.Net(next[i]);
      if !IsProcessed(next[i], p) {
        KeptUpScan(rows, next, p, terms, c, i + 1, limit, running);
      } else if total <= 0.0 {
        KeptUpScan(rows, next, p, terms, c, i + 1, limit - 1, total);
      }
    }
  }

  /** A blocked table stays stalled whatever is confirmed and whatever arrives. */
  lemma BlockedIsStalled(rows: seq<Tx>, p: Pair, terms: Terms, c: nat)
    requires UniqueGuids(rows) && Blocked(rows, p, terms, c)
    ensures StalledForever(rows, p, terms)
  {
    forall next | Possible(rows, next, p) ensures !Ripe(next, p, terms) {
      assert next[0..] == next;
      PossibleIsKeptUp(rows, next, p, terms, c);
      KeptUpScan(rows, next, p, terms, c, 0, BATCH_LIMIT, 0.0);
      ScanIsCanSettle(next, p, terms, BATCH_LIMIT, 0.0);
    }
    StalledIffNeverRipe(rows, p, terms);
  }

  // Freed by one older deposit.

  lemma {:induction false} FirstProcessedDecides(rows: seq<Tx>, p: Pair, terms: Terms, i: nat, o: nat)
    requires i <= o < |rows| && IsProcessed(rows[o], p)
    requires forall k :: i <= k < o ==> !IsProcessed(rows[k], p)
    requires terms.Net(rows[o]) > 0.0
    ensures Scan(rows[i..], p, terms, BATCH_LIMIT, 0.0) == (terms.Net(rows[o]) >= terms.minimum)
    decreases o - i
  {
    ScanStep(rows, p, terms, i, BATCH_LIMIT, 0.0);
    if i < o {
      FirstProcessedDecides(rows, p, terms, i + 1, o);
    }
  }

  /** An `init` deposit older than every processed one, in reach and not below the minimum, frees the queue. */
  lemma OlderDepositFreesTheQueue(rows: seq<Tx>, p: Pair, terms: Terms, o: nat)
    requires UniqueGuids(rows) && o < |rows| && Reachable(rows, p, o)
    requires forall k :: 0 <= k < o ==> !IsProcessed(rows[k], p)
    requires terms.Net(rows[o]) > 0.0 && terms.Net(rows[o]) >= terms.minimum
    ensures !StalledForever(rows, p, terms)
  {
    var goal := rows[o := rows[o].(status := Processed)];
    SameRowsKeepGuids(rows, goal);
    CountAgrees(rows, goal, QueryOf(p, Init), o);
    forall i | 0 <= i < |goal| && Mine(goal[i], p) ensures MayBecome(rows, goal, p, i) {
    }
    assert Possible(rows, goal, p);
    assert goal[0..] == goal && terms.Net(goal[o]) == terms.Net(rows[o]);
    FirstProcessedDecides(goal, p, terms, 0, o);
    ScanIsCanSettle(goal, p, terms, BATCH_LIMIT, 0.0);
    StalledIffNeverRipe(rows, p, terms);
  }

  // Freed by sinking: with all losses confirmed, the running total stays down until a newcomer makes the jump.

  /** The waiting deposits from `i` on. */
  function WaitingFrom(rows: seq<Tx>, p: Pair, i: nat): nat
    requires i <= |rows|
    decreases |rows| - i
  {
    if i == |rows| then 0 else (if Waiting(rows[i], p) then 1 else 0) + WaitingFrom(rows, p, i + 1)
  }

  /** The waiting deposits and one more fit in one batch. */
  predicate Room(rows: seq<Tx>, p: Pair) {
    WaitingFrom(rows, p, 0) < BATCH_LIMIT
  }

  predicate Leaves(terms: Terms, amount: real, net: real) {
    amount > 0.0 && Whole(amount) && amount - terms.charge(amount) >= net
  }

  /** However much is asked for, some new deposit nets it: the commission does not eat up everything. */
  ghost predicate Unbounded(terms: Terms) {
    forall net: real :: CanNet(terms, net)
  }

  ghost predicate CanNet(terms: Terms, net: real) {
    exists amount :: Leaves(terms, amount, net)
  }

  /** The table with all losses confirmed. */
  function Sunk(rows: seq<Tx>, p: Pair, terms: Terms): (next: seq<Tx>)
    ensures |next| == |rows|
    ensures forall i :: 0 <= i < |rows| ==>
              next[i]
              == if IsInit(rows[i], p) && terms.Net(rows[i]) <= 0.0 then rows[i].(status := Processed) else rows[i]
  {
    seq(|rows|, i requires 0 <= i < |rows| =>
      if IsInit(rows[i], p) && terms.Net(rows[i]) <= 0.0 then rows[i].(status := Processed) else rows[i])
  }

  function FreshGuid(rows: seq<Tx>): (g: nat)
    ensures forall t :: t in rows ==> t.guid < g
  {
    if rows == [] then 0
    else
      var g := FreshGuid(rows[1..]);
      if rows[0].guid < g then g else rows[0].guid + 1
  }

  function Newcomer(p: Pair, guid: nat, amount: real): Tx {
    Tx(guid, p.merchant, "", p.blockchain, Deposit, "", Processed, "", "", amount, 0.0, "", "", "", "")
  }

  lemma {:induction false} CountIsSmall(rows: seq<Tx>, next: seq<Tx>, p: Pair, i: nat)
    requires i <= |rows| && i <= |next|
    requires forall k :: 0 <= k < i ==> IsInit(next[k], p) ==> Waiting(rows[k], p)
    ensures CountBefore(next, QueryOf(p, Init), i) <= WaitingFrom(rows, p, 0)
  {
    if i > 0 {
      WaitingTail(rows, p, 1);
      CountIsSmall(rows[1..], next[1..], p, i - 1);
    }
  }

  lemma {:induction false} WaitingTail(rows: seq<Tx>, p: Pair, i: nat)
    requires 1 <= i <= |rows|
    ensures WaitingFrom(rows, p, i) == WaitingFrom(rows[1..], p, i - 1)
    decreases |rows| - i
  {
    if i < |rows| {
      WaitingTail(rows, p, i + 1);
    }
  }

  /** The row is processed exactly when its net amount counts towards the lowest running total. */
  predicate Sinks(t: Tx, sunk: Tx, p: Pair, terms: Terms) {
    && LowNet(t, p, terms) == (if IsProcessed(sunk, p) then terms.Net(sunk) else 0.0)
    && (IsProcessed(sunk, p) ==> Waiting(t, p))
  }

  lemma SunkSinks(rows: seq<Tx>, goal: seq<Tx>, p: Pair, terms: Terms)
    requires |rows| <= |goal| && goal[..|rows|] == Sunk(rows, p, terms)
    ensures forall k :: 0 <= k < |rows| ==> Sinks(rows[k], goal[k], p, terms)
  {
    forall k | 0 <= k < |rows| ensures Sinks(rows[k], goal[k], p, terms) {
      assert goal[..|rows|][k] == goal[k];
    }
  }

  /** The scan passes over everything that keeps the total down and comes to the newcomer. */
  lemma {:induction false} SunkScan(rows: seq<Tx>, goal: seq<Tx>, p: Pair, terms: Terms, i: nat, limit: nat)
    requires i <= |rows| && |goal| == |rows| + 1
    requires forall k :: 0 <= k < |rows| ==> Sinks(rows[k], goal[k], p, terms)
    requires IsProcessed(goal[|rows|], p) && limit > WaitingFrom(rows, p, i)
    requires forall k :: 0 <= k <= |rows| ==> Low(rows, p, terms, k) <= 0.0
    requires Low(rows, p, terms, |rows|) + terms.Net(goal[|rows|]) >= terms.minimum > 0.0
    ensures Scan(goal[i..], p, terms, limit, Low(rows, p, terms, i))
    decreases |rows| - i
  {
    ScanStep(goal, p, terms, i, limit, Low(rows, p, terms, i));
    if i < |rows| {
      assert Sinks(rows[i], goal[i], p, terms);
      assert Low(rows, p, terms, i + 1) == Low(rows, p, terms, i) + LowNet(rows[i], p, terms) <= 0.0;
      SunkScan(rows, goal, p, terms, i + 1, if IsProcessed(goal[i], p) then limit - 1 else limit);
    }
  }

  lemma SunkIsPossible(rows: seq<Tx>, p: Pair, terms: Terms, t: Tx)
    requires UniqueGuids(rows) && Room(rows, p) && t.status == Processed && IsNew(AsInserted(t))
    requires forall u :: u in rows ==> u.guid != t.guid
    ensures Possible(rows, Sunk(rows, p, terms) + [t], p)
  {
    var sunk := Sunk(rows, p, terms);
    var goal := sunk + [t];
    SameRowsKeepGuids(rows, sunk);
    forall u | u in sunk ensures u.guid != t.guid {
      var k :| 0 <= k < |sunk| && sunk[k] == u;
      assert rows[k] in rows;
    }
    NewRowKeepsGuids(sunk, t);
    forall i | 0 <= i < |goal| && Mine(goal[i], p) ensures MayBecome(rows, goal, p, i) {
      CountIsSmall(rows, goal, p, i);
    }
  }

  lemma SunkIsRipe(rows: seq<Tx>, p: Pair, terms: Terms, t: Tx)
    requires Room(rows, p) && IsProcessed(t, p)
    requires forall k :: 0 <= k <= |rows| ==> Low(rows, p, terms, k) <= 0.0
    requires Low(rows, p, terms, |rows|) + terms.Net(t) >= terms.minimum > 0.0
    ensures Ripe(Sunk(rows, p, terms) + [t], p, terms)
  {
    var goal := Sunk(rows, p, terms) + [t];
    assert goal[..|rows|] == Sunk(rows, p, terms) && goal[0..] == goal;
    SunkSinks(rows, goal, p, terms);
    SunkScan(rows, goal, p, terms, 0, BATCH_LIMIT);
    ScanIsCanSettle(goal, p, terms, BATCH_LIMIT, 0.0);
  }

  /** If the lowest running total is never positive, a large enough newcomer frees the queue. */
  lemma SinkingFreesTheQueue(rows: seq<Tx>, p: Pair, terms: Terms)
    requires UniqueGuids(rows) && Room(rows, p) && Unbounded(terms) && terms.minimum > 0.0
    requires forall k :: 0 <= k <= |rows| ==> Low(rows, p, terms, k) <= 0.0
    ensures !StalledForever(rows, p, terms)
  {
    var net := terms.minimum - Low(rows, p, terms, |rows|);
    assert CanNet(terms, net);
    var amount :| Leaves(terms, amount, net);
    var t := Newcomer(p, FreshGuid(rows), amount);
    SunkIsPossible(rows, p, terms, t);
    SunkIsRipe(rows, p, terms, t);
    RipeGoalFrees(rows, Sunk(rows, p, terms) + [t], p, terms);
  }

  // From an empty table.

  /** No deposit of the pair makes the jump from below zero to the minimum. */
  predicate NoJump(t: Tx, p: Pair, terms: Terms) {
    IsProcessed(t, p) ==> terms.Net(t) <= 0.0 || terms.Net(t) < terms.minimum
  }

  lemma {:induction false} NothingJumps(rows: seq<Tx>, p: Pair, terms: Terms, limit: nat, running: real)
    requires running <= 0.0 && forall t :: t in rows ==> NoJump(t, p, terms)
    ensures !Scan(rows, p, terms, limit, running)
  {
    if rows != [] && limit > 0 {
      assert NoJump(rows[0], p, terms);
      if !IsProcessed(rows[0], p) {
        NothingJumps(rows[1..], p, terms, limit, running);
      } else if running + terms.Net(rows[0]) <= 0.0 {
        NothingJumps(rows[1..], p, terms, limit - 1, running + terms.Net(rows[0]));
      }
    }
  }

  /** A merchant whose table is still empty never gets anything settled if and only if no deposit nets the minimum. */
  lemma EmptyStallIff(p: Pair, terms: Terms)
    requires terms.minimum > 0.0
    ensures StalledForever([], p, terms) <==> !CanNet(terms, terms.minimum)
  {
    StalledIffNeverRipe([], p, terms);
    if CanNet(terms, terms.minimum) {
      var amount :| Leaves(terms, amount, terms.minimum);
      var goal := [Newcomer(p, 0, amount)];
      assert Possible([], goal, p);
      assert Scan(goal, p, terms, BATCH_LIMIT, 0.0);
      ScanIsCanSettle(goal, p, terms, BATCH_LIMIT, 0.0);
    } else {
      forall goal | Possible([], goal, p) ensures !Ripe(goal, p, terms) {
        forall t | t in goal ensures NoJump(t, p, terms) {
          var i :| 0 <= i < |goal| && goal[i] == t;
          assert IsNew(AsInserted(goal[i])) && !Leaves(terms, t.amount, terms.minimum);
        }
        NothingJumps(goal, p, terms, BATCH_LIMIT, 0.0);
        ScanIsCanSettle(goal, p, terms, BATCH_LIMIT, 0.0);
      }
    }
  }

  // A small deposit at the head of the queue.

  predicate TooSmall(t: Tx, terms: Terms) {
    0.0 < terms.Net(t) < terms.minimum
  }

  ghost predicate OldestProcessed(rows: seq<Tx>, p: Pair, b: nat) {
    && b < |rows| && IsProcessed(rows[b], p)
    && forall i :: 0 <= i < b ==> !IsProcessed(rows[i], p)
  }

  /** Whatever else there is: if the oldest processed deposit is too small and so is every older `init` deposit in
      reach, nothing is ever settled. */
  lemma SmallHeadsStall(rows: seq<Tx>, p: Pair, terms: Terms, b: nat)
    requires UniqueGuids(rows) && OldestProcessed(rows, p, b) && TooSmall(rows[b], terms)
    requires forall i :: 0 <= i < b && Reachable(rows, p, i) ==> TooSmall(rows[i], terms)
    ensures StalledForever(rows, p, terms)
  {
    forall next | Possible(rows, next, p) ensures !Ripe(next, p, terms) {
      SmallHead(rows, next, p, terms, b);
    }
    StalledIffNeverRipe(rows, p, terms);
  }

  lemma SmallHead(rows: seq<Tx>, next: seq<Tx>, p: Pair, terms: Terms, b: nat)
    requires OldestProcessed(rows, p, b) && TooSmall(rows[b], terms) && Possible(rows, next, p)
    requires forall i :: 0 <= i < b && Reachable(rows, p, i) ==> TooSmall(rows[i], terms)
    ensures !Ripe(next, p, terms)
  {
    assert SameIdentity(rows[b], next[b]) && MayBecome(rows, next, p, b);
    var o := OldestOf(next, p, b);
    assert SameIdentity(rows[o], next[o]) && MayBecome(rows, next, p, o);
    forall k | 0 <= k < o ensures IsInit(rows[k], p) == IsInit(next[k], p) {
      assert SameIdentity(rows[k], next[k]) && (Mine(next[k], p) ==> MayBecome(rows, next, p, k));
    }
    CountAgrees(rows, next, QueryOf(p, Init), o);
    assert TooSmall(rows[o], terms) && terms.Net(rows[o]) == terms.Net(next[o]);
    assert next[0..] == next;
    FirstProcessedDecides(next, p, terms, 0, o);
    ScanIsCanSettle(next, p, terms, BATCH_LIMIT, 0.0);
  }

  lemma OldestOf(rows: seq<Tx>, p: Pair, b: nat) returns (o: nat)
    requires b < |rows| && IsProcessed(rows[b], p)
    ensures o <= b && IsProcessed(rows[o], p) && forall k :: 0 <= k < o ==> !IsProcessed(rows[k], p)
  {
    o := 0;
    while !IsProcessed(rows[o], p)
      invariant o <= b && forall k :: 0 <= k < o ==> !IsProcessed(rows[k], p)
      decreases b - o
    {
      o := o + 1;
    }
  }

  /** For positive older amounts the condition is exact without any bound on their number: stalled if and only if
      every older `init` deposit in reach is below the minimum, too. */
  lemma PositiveStallIff(rows: seq<Tx>, p: Pair, terms: Terms, b: nat)
    requires UniqueGuids(rows) && OldestProcessed(rows, p, b) && TooSmall(rows[b], terms)
    requires forall i :: 0 <= i < b && IsInit(rows[i], p) ==> terms.Net(rows[i]) > 0.0
    ensures StalledForever(rows, p, terms)
       <==> forall i :: 0 <= i < b && Reachable(rows, p, i) ==> terms.Net(rows[i]) < terms.minimum
  {
    if forall i :: 0 <= i < b && Reachable(rows, p, i) ==> terms.Net(rows[i]) < terms.minimum {
      SmallHeadsStall(rows, p, terms, b);
    } else {
      var o :| 0 <= o < b && Reachable(rows, p, o) && terms.Net(rows[o]) >= terms.minimum;
      OlderDepositFreesTheQueue(rows, p, terms, o);
    }
  }

  /** Losses included: let the oldest processed deposit `b` be the only processed one of the pair that gains, and too
      small. Then the pair is stalled for good if and only if every older `init` deposit is below the minimum and all
      the older losses together do not outweigh `b`. */
  lemma StalledForeverIff(rows: seq<Tx>, p: Pair, terms: Terms, b: nat)
    requires UniqueGuids(rows) && OldestProcessed(rows, p, b) && TooSmall(rows[b], terms)
    requires forall i :: b < i < |rows| && IsProcessed(rows[i], p) ==> terms.Net(rows[i]) <= 0.0
    requires Room(rows, p) && Unbounded(terms)
    ensures StalledForever(rows, p, terms)
       <==> (forall i :: 0 <= i < b && IsInit(rows[i], p) ==> terms.Net(rows[i]) < terms.minimum)
            && Low(rows, p, terms, b) + terms.Net(rows[b]) > 0.0
  {
    if o :| 0 <= o < b && IsInit(rows[o], p) && terms.Net(rows[o]) >= terms.minimum {
      CountIsSmall(rows, rows, p, o);
      OlderDepositFreesTheQueue(rows, p, terms, o);
    } else if Low(rows, p, terms, b) + terms.Net(rows[b]) > 0.0 {
      assert Blocked(rows, p, terms, b);
      BlockedIsStalled(rows, p, terms, b);
    } else {
      forall k | 0 <= k <= |rows| ensures Low(rows, p, terms, k) <= 0.0 {
        LowStaysDown(rows, p, terms, b, k);
      }
      SinkingFreesTheQueue(rows, p, terms);
    }
  }

  lemma {:induction false} LowStaysDown(rows: seq<Tx>, p: Pair, terms: Terms, b: nat, k: nat)
    requires b < |rows| && k <= |rows| && Low(rows, p, terms, b) + LowNet(rows[b], p, terms) <= 0.0
    requires forall i :: 0 <= i < |rows| && i != b && IsProcessed(rows[i], p) ==> terms.Net(rows[i]) <= 0.0
    ensures Low(rows, p, terms, k) <= 0.0
    ensures k > b ==> Low(rows, p, terms, k) <= Low(rows, p, terms, b + 1)
  {
    if k > 0 {
      LowStaysDown(rows, p, terms, b, k - 1);
    }
  }

  function ExampleDeposit(guid: nat, status: Status, amount: real): Tx {
    Tx(guid, "m", "u", "chain", Deposit, "", status, "token", "issuer", amount, 0.0, "", "hash", "", "")
  }

  /** An older loss frees the queue although no older deposit reaches the minimum: a deposit of 1 under a fixed
      commission of 3 nets -2, which outweighs the processed deposit of 4 that nets 1. */
  lemma AnOlderLossFrees() returns (rows: seq<Tx>, p: Pair, terms: Terms)
    ensures UniqueGuids(rows) && OldestProcessed(rows, p, 1) && TooSmall(rows[1], terms)
    ensures forall i :: 0 <= i < 1 && IsInit(rows[i], p) ==> terms.Net(rows[i]) < terms.minimum
    ensures !StalledForever(rows, p, terms)
  {
    p, terms := Pair("m", "chain"), Terms((amount: real) => 3.0, 5.0);
    rows := [ExampleDeposit(0, Init, 1.0), ExampleDeposit(1, Processed, 4.0)];
    forall net: real ensures CanNet(terms, net) {
      var amount := if net > 0.0 then (net.Floor + 4) as real else 4.0;
      assert Leaves(terms, amount, net);
    }
    assert WaitingFrom(rows, p, 1) == 1 && WaitingFrom(rows, p, 0) == 2;
    assert Low(rows, p, terms, 1) == -2.0;
    StalledForeverIff(rows, p, terms, 1);
  }
}
