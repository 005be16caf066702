/** The transaction table (modules/storage/transactions.go).

    The SQL table is a sequence of rows in `created_at` order.  An `UPDATE … WHERE guid = …` is an
    `Edit` applied to every row that carries the addressed key; nothing checks the row's status first,
    exactly as in the source. */
module Transactions {

  datatype Status = Init | Processed | Settled | Done | Rejected

  datatype Action = Deposit | Withdraw

  datatype Tx = Tx(
    guid: nat, merchant: string, external: string, blockchain: string, action: Action, extWallet: string,
    status: Status, asset: string, issuer: string, amount: real, commission: real,
    hash1: string, hash2: string, hash3: string, hash5: string)

  /** The columns that an UPDATE addresses a row by. */
  datatype Key = Key(guid: nat, merchant: string, external: string)

  /** What the five UPDATE statements write. */
  datatype Edit =
    | Reject
    | Pend(hash2: string)
    | Process(hash2: string, commission: real)
    | Settle(hash3: string)
    | Finish(hash5: string)

  datatype Query = Query(merchant: string, blockchain: string, action: Action, status: Status)

  datatype FetchResult = Found(batch: seq<Tx>) | NotFound

  const BATCH_LIMIT: nat := 1000

  function KeyOf(t: Tx): Key {
    Key(t.guid, t.merchant, t.external)
  }

  function Edited(t: Tx, e: Edit): Tx {
    match e
    case Reject => t.(status := Rejected)
    case Pend(h) => t.(status := Init, hash2 := h)
    case Process(h, c) => t.(status := Processed, hash2 := h, commission := c)
    case Settle(h) => t.(status := Settled, hash3 := h)
    case Finish(h) => t.(status := Done, hash5 := h)
  }

  function EditedAll(t: Tx, es: seq<Edit>): Tx {
    if es == [] then t else Edited(EditedAll(t, es[..|es| - 1]), es[|es| - 1])
  }

  predicate Matches(t: Tx, q: Query) {
    t.merchant == q.merchant && t.blockchain == q.blockchain && t.action == q.action && t.status == q.status
  }

  ghost predicate UniqueGuids(rows: seq<Tx>) {
    forall i, j :: 0 <= i < j < |rows| ==> rows[i].guid != rows[j].guid
  }

  ghost predicate HasGuid(rows: seq<Tx>, g: nat) {
    exists i :: 0 <= i < |rows| && rows[i].guid == g
  }

  /** Two versions of a row that differ only in the columns an UPDATE can write. */
  predicate SameIdentity(t: Tx, u: Tx) {
    && KeyOf(t) == KeyOf(u) && t.blockchain == u.blockchain && t.action == u.action && t.extWallet == u.extWallet
    && t.asset == u.asset && t.issuer == u.issuer && t.amount == u.amount && t.hash1 == u.hash1
  }

  function Put(rows: seq<Tx>, key: Key, e: Edit): (rows': seq<Tx>)
    ensures |rows'| == |rows|
    ensures forall i :: 0 <= i < |rows| ==> rows'[i] == if KeyOf(rows[i]) == key then Edited(rows[i], e) else rows[i]
  {
    seq(|rows|, i requires 0 <= i < |rows| => if KeyOf(rows[i]) == key then Edited(rows[i], e) else rows[i])
  }

  /** The first `limit` rows that satisfy the query, oldest first. */
  function Fetch(rows: seq<Tx>, q: Query, limit: nat): (batch: seq<Tx>)
    ensures |batch| <= limit
  {
    if rows == [] || limit == 0 then []
    else if Matches(rows[0], q) then [rows[0]] + Fetch(rows[1..], q, limit - 1)
    else Fetch(rows[1..], q, limit)
  }

  /** How many of the first `i` rows satisfy the query. */
  function CountBefore(rows: seq<Tx>, q: Query, i: nat): nat
    requires i <= |rows|
  {
    if i == 0 then 0
    else
      var t := rows[0];
      (if t.merchant == q.merchant && t.blockchain == q.blockchain && t.action == q.action && t.status == q.status
       then 1 else 0)
      + CountBefore(rows[1..], q, i - 1)
  }

  predicate IsInitiated(t: Tx, merchant: string, external: string, blockchain: string, action: Action) {
    && t.merchant == merchant && t.external == external && t.blockchain == blockchain
    && t.action == action && t.status == Init
  }

  /** The rows `GetInitTransactions` selects. */
  function Initiated(rows: seq<Tx>, merchant: string, external: string, blockchain: string, action: Action): seq<Tx> {
    if rows == [] then []
    else
      var last := rows[|rows| - 1];
      Initiated(rows[..|rows| - 1], merchant, external, blockchain, action)
      + (if IsInitiated(last, merchant, external, blockchain, action) then [last] else [])
  }

  /** The rows `GetTransactionByGuid` selects. */
  function WithGuid(rows: seq<Tx>, merchant: string, guid: nat): (s: seq<Tx>)
    ensures forall t :: t in s <==> t in rows && t.merchant == merchant && t.guid == guid
  {
    if rows == [] then []
    else
      var last := rows[|rows| - 1];
      WithGuid(rows[..|rows| - 1], merchant, guid)
      + (if last.merchant == merchant && last.guid == guid then [last] else [])
  }

  /** One loop over a fetched batch: row after row, the edits that `f` prescribes for the fetched copy. */
  function Puts(rows: seq<Tx>, batch: seq<Tx>, f: Tx -> seq<Edit>): (rows': seq<Tx>)
    ensures |rows'| == |rows|
  {
    if batch == [] then rows
    else
      var last := batch[|batch| - 1];
      PutAll(Puts(rows, batch[..|batch| - 1], f), KeyOf(last), f(last))
  }

  function PutAll(rows: seq<Tx>, key: Key, es: seq<Edit>): (rows': seq<Tx>)
    ensures |rows'| == |rows|
  {
    if es == [] then rows else Put(PutAll(rows, key, es[..|es| - 1]), key, es[|es| - 1])
  }

  /** Reference definition of a phase: one ordered pass that rewrites the first `limit` matching rows in place. */
  function Walk(rows: seq<Tx>, q: Query, limit: nat, f: Tx -> seq<Edit>): (rows': seq<Tx>)
    ensures |rows'| == |rows|
  {
    if rows == [] || limit == 0 then rows
    else if Matches(rows[0], q) then [EditedAll(rows[0], f(rows[0]))] + Walk(rows[1..], q, limit - 1, f)
    else [rows[0]] + Walk(rows[1..], q, limit, f)
  }

  lemma {:induction false} EditedAllKeepsIdentity(t: Tx, es: seq<Edit>)
    ensures SameIdentity(t, EditedAll(t, es))
  {
    if es != [] {
      EditedAllKeepsIdentity(t, es[..|es| - 1]);
    }
  }

  lemma PutAllOne(rows: seq<Tx>, key: Key, e: Edit)
    ensures PutAll(rows, key, [e]) == Put(rows, key, e)
  {
    assert [e][..0] == [];
  }

  lemma PutsStep(rows: seq<Tx>, batch: seq<Tx>, f: Tx -> seq<Edit>, j: nat)
    requires j < |batch|
    ensures Puts(rows, batch[..j + 1], f) == PutAll(Puts(rows, batch[..j], f), KeyOf(batch[j]), f(batch[j]))
  {
    assert batch[..j + 1][..j] == batch[..j];
  }

  lemma {:induction false} PutAllAt(rows: seq<Tx>, key: Key, es: seq<Edit>, i: nat)
    requires i < |rows|
    ensures PutAll(rows, key, es)[i] == if KeyOf(rows[i]) == key then EditedAll(rows[i], es) else rows[i]
  {
    if es != [] {
      PutAllAt(rows, key, es[..|es| - 1], i);
      EditedAllKeepsIdentity(rows[i], es[..|es| - 1]);
    }
  }

  /** A loop over a batch treats every row on its own: only the batch entries with the row's key touch it. */
  lemma {:induction false} PutsIsPointwise(rows: seq<Tx>, batch: seq<Tx>, f: Tx -> seq<Edit>, i: nat)
    requires i < |rows|
    ensures Puts(rows, batch, f)[i] == Puts([rows[i]], batch, f)[0]
    ensures SameIdentity(rows[i], Puts(rows, batch, f)[i])
  {
    if batch != [] {
      var n := |batch| - 1;
      PutsIsPointwise(rows, batch[..n], f, i);
      PutAllAt(Puts(rows, batch[..n], f), KeyOf(batch[n]), f(batch[n]), i);
      PutAllAt(Puts([rows[i]], batch[..n], f), KeyOf(batch[n]), f(batch[n]), 0);
      EditedAllKeepsIdentity(Puts(rows, batch[..n], f)[i], f(batch[n]));
    }
  }

  /** Rows whose key is not in the batch are left alone. */
  lemma {:induction false} PutsMisses(rows: seq<Tx>, batch: seq<Tx>, f: Tx -> seq<Edit>, i: nat)
    requires i < |rows|
    requires forall j :: 0 <= j < |batch| ==> KeyOf(batch[j]) != KeyOf(rows[i])
    ensures Puts(rows, batch, f)[i] == rows[i]
  {
    if batch != [] {
      var n := |batch| - 1;
      PutsMisses(rows, batch[..n], f, i);
      PutAllAt(Puts(rows, batch[..n], f), KeyOf(batch[n]), f(batch[n]), i);
    }
  }

  /** A row whose key occurs exactly once in the batch receives exactly the edits of that entry. */
  lemma {:induction false} PutsHits(rows: seq<Tx>, batch: seq<Tx>, f: Tx -> seq<Edit>, i: nat, j: nat)
    requires i < |rows| && j < |batch| && KeyOf(batch[j]) == KeyOf(rows[i])
    requires forall k :: 0 <= k < |batch| && k != j ==> KeyOf(batch[k]) != KeyOf(rows[i])
    ensures Puts(rows, batch, f)[i] == EditedAll(rows[i], f(batch[j]))
  {
    var n := |batch| - 1;
    PutAllAt(Puts(rows, batch[..n], f), KeyOf(batch[n]), f(batch[n]), i);
    PutsIsPointwise(rows, batch[..n], f, i);
    if j == n {
      PutsMisses(rows, batch[..n], f, i);
    } else {
      PutsHits(rows, batch[..n], f, i, j);
    }
  }

  lemma {:induction false} FetchMembers(rows: seq<Tx>, q: Query, limit: nat)
    ensures forall j :: 0 <= j < |Fetch(rows, q, limit)| ==> Fetch(rows, q, limit)[j] in rows
    ensures forall j :: 0 <= j < |Fetch(rows, q, limit)| ==> Matches(Fetch(rows, q, limit)[j], q)
  {
    if rows != [] && limit > 0 {
      FetchMembers(rows[1..], q, if Matches(rows[0], q) then limit - 1 else limit);
    }
  }

  lemma {:induction false} FetchHasUniqueGuids(rows: seq<Tx>, q: Query, limit: nat)
    requires UniqueGuids(rows)
    ensures UniqueGuids(Fetch(rows, q, limit))
  {
    if rows != [] && limit > 0 {
      if Matches(rows[0], q) {
        FetchHasUniqueGuids(rows[1..], q, limit - 1);
        var rest := Fetch(rows[1..], q, limit - 1);
        FetchMembers(rows[1..], q, limit - 1);
        forall j | 0 <= j < |rest| ensures rest[j].guid != rows[0].guid {
          var k :| 0 <= k < |rows[1..]| && rows[1..][k] == rest[j];
          assert rows[k + 1].guid != rows[0].guid;
        }
      } else {
        FetchHasUniqueGuids(rows[1..], q, limit);
      }
    }
  }

  lemma FetchAvoidsHead(rows: seq<Tx>, q: Query, limit: nat)
    requires UniqueGuids(rows) && rows != []
    ensures forall j :: 0 <= j < |Fetch(rows[1..], q, limit)| ==> Fetch(rows[1..], q, limit)[j].guid != rows[0].guid
  {
    var tail := Fetch(rows[1..], q, limit);
    FetchMembers(rows[1..], q, limit);
    forall j | 0 <= j < |tail| ensures tail[j].guid != rows[0].guid {
      var k :| 0 <= k < |rows[1..]| && rows[1..][k] == tail[j];
      assert rows[k + 1].guid != rows[0].guid;
    }
  }

  lemma PutsBelowHead(rows: seq<Tx>, head: seq<Tx>, tail: seq<Tx>, f: Tx -> seq<Edit>, i: nat)
    requires UniqueGuids(rows) && 0 < i < |rows|
    requires head == [] || head == [rows[0]]
    ensures Puts(rows, head + tail, f)[i] == Puts(rows[1..], tail, f)[i - 1]
  {
    PutsIsPointwise(rows, head + tail, f, i);
    PutsIsPointwise(rows[1..], tail, f, i - 1);
    if head == [] {
      assert head + tail == tail;
    } else {
      PutsDropsForeignHead([rows[i]], rows[0], tail, f);
    }
  }

  lemma PutsSplitsAtHead(rows: seq<Tx>, head: seq<Tx>, tail: seq<Tx>, f: Tx -> seq<Edit>)
    requires UniqueGuids(rows) && rows != []
    requires head == [] || head == [rows[0]]
    requires forall j :: 0 <= j < |tail| ==> tail[j].guid != rows[0].guid
    ensures Puts(rows, head + tail, f)
         == [if head == [] then rows[0] else EditedAll(rows[0], f(rows[0]))] + Puts(rows[1..], tail, f)
  {
    if head == [] {
      PutsMisses(rows, head + tail, f, 0);
    } else {
      PutsHits(rows, head + tail, f, 0, 0);
    }
    var result, rest := Puts(rows, head + tail, f), Puts(rows[1..], tail, f);
    forall i | 0 < i < |rows| ensures result[i] == rest[i - 1] {
      PutsBelowHead(rows, head, tail, f, i);
    }
    assert result == [result[0]] + rest;
  }

  /** The fetch-then-update-by-key loop of the source is one ordered pass over the table. */
  lemma {:induction false} PutsOfFetchIsWalk(rows: seq<Tx>, q: Query, limit: nat, f: Tx -> seq<Edit>)
    requires UniqueGuids(rows)
    ensures Puts(rows, Fetch(rows, q, limit), f) == Walk(rows, q, limit, f)
  {
    if rows == [] || limit == 0 {
      assert Fetch(rows, q, limit) == [];
    } else {
      var hit := Matches(rows[0], q);
      var head := if hit then [rows[0]] else [];
      var limit' := if hit then limit - 1 else limit;
      var tail := Fetch(rows[1..], q, limit');
      assert Fetch(rows, q, limit) == head + tail;
      FetchAvoidsHead(rows, q, limit');
      PutsSplitsAtHead(rows, head, tail, f);
      PutsOfFetchIsWalk(rows[1..], q, limit', f);
      calc {
        Puts(rows, Fetch(rows, q, limit), f);
        Puts(rows, head + tail, f);
        [if head == [] then rows[0] else EditedAll(rows[0], f(rows[0]))] + Walk(rows[1..], q, limit', f);
        Walk(rows, q, limit, f);
      }
    }
  }

  lemma {:induction false} PutsDropsForeignHead(rows: seq<Tx>, head: Tx, tail: seq<Tx>, f: Tx -> seq<Edit>)
    requires forall i :: 0 <= i < |rows| ==> KeyOf(rows[i]) != KeyOf(head)
    ensures Puts(rows, [head] + tail, f) == Puts(rows, tail, f)
  {
    var batch := [head] + tail;
    if tail == [] {
      assert batch[..0] == [];
      forall i | 0 <= i < |rows| ensures Puts(rows, batch, f)[i] == rows[i] {
        PutAllAt(rows, KeyOf(head), f(head), i);
      }
      assert Puts(rows, batch, f) == rows;
    } else {
      var n := |tail| - 1;
      assert batch[..n + 1] == [head] + tail[..n];
      PutsDropsForeignHead(rows, head, tail[..n], f);
    }
  }

  lemma IndexOf(rows: seq<Tx>, t: Tx) returns (i: nat)
    requires t in rows && UniqueGuids(rows)
    ensures i < |rows| && rows[i] == t
    ensures forall k :: 0 <= k < |rows| && k != i ==> KeyOf(rows[k]) != KeyOf(t) && rows[k].guid != t.guid
  {
    i :| 0 <= i < |rows| && rows[i] == t;
    forall k | 0 <= k < |rows| && k != i ensures rows[k].guid != t.guid {
      if k < i { assert rows[k].guid != rows[i].guid; } else { assert rows[i].guid != rows[k].guid; }
    }
  }

  lemma AppendAssociates<T>(a: seq<T>, x: T, b: seq<T>)
    ensures a + ([x] + b) == (a + [x]) + b
  {
  }

  lemma FetchStep(rows: seq<Tx>, i: nat, q: Query, limit: nat)
    requires i < |rows| && limit > 0
    ensures Fetch(rows[i..], q, limit)
         == if Matches(rows[i], q) then [rows[i]] + Fetch(rows[i + 1..], q, limit - 1)
            else Fetch(rows[i + 1..], q, limit)
  {
    assert rows[i..][0] == rows[i] && rows[i..][1..] == rows[i + 1..];
  }

  lemma {:induction false} CountAgrees(rows: seq<Tx>, rows': seq<Tx>, q: Query, i: nat)
    requires i <= |rows| && i <= |rows'|
    requires forall k :: 0 <= k < i ==> Matches(rows[k], q) == Matches(rows'[k], q)
    ensures CountBefore(rows, q, i) == CountBefore(rows', q, i)
  {
    if i > 0 {
      CountAgrees(rows[1..], rows'[1..], q, i - 1);
    }
  }

  /** More rows, no fewer of them; and one more past a row that satisfies the query. */
  lemma {:induction false} CountGrows(rows: seq<Tx>, q: Query, r: nat, i: nat)
    requires r < i <= |rows|
    ensures CountBefore(rows, q, r) + (if Matches(rows[r], q) then 1 else 0) <= CountBefore(rows, q, i)
  {
    if r > 0 {
      CountGrows(rows[1..], q, r - 1, i - 1);
    }
  }

  lemma {:induction false} WalkReaches(rows: seq<Tx>, q: Query, limit: nat, f: Tx -> seq<Edit>, i: nat)
    requires i < |rows| && Walk(rows, q, limit, f)[i] != rows[i]
    ensures Matches(rows[i], q) && CountBefore(rows, q, i) < limit
  {
    if i > 0 {
      WalkReaches(rows[1..], q, if Matches(rows[0], q) then limit - 1 else limit, f, i - 1);
    }
  }

  lemma {:induction false} WalkHits(rows: seq<Tx>, q: Query, limit: nat, f: Tx -> seq<Edit>, i: nat)
    requires i < |rows| && Matches(rows[i], q) && CountBefore(rows, q, i) < limit
    ensures Walk(rows, q, limit, f)[i] == EditedAll(rows[i], f(rows[i]))
  {
    if i > 0 {
      WalkHits(rows[1..], q, if Matches(rows[0], q) then limit - 1 else limit, f, i - 1);
    }
  }

  /** The batch is the oldest rows in order: a row with fewer than `limit` older ones comes at their number. */
  lemma {:induction false} FetchedInOrder(rows: seq<Tx>, q: Query, limit: nat, i: nat)
    requires i < |rows| && CountBefore(rows, q, i) < limit
    requires var t := rows[i];
             t.merchant == q.merchant && t.blockchain == q.blockchain && t.action == q.action && t.status == q.status
    ensures var batch, j := Fetch(rows, q, limit), CountBefore(rows, q, i); j < |batch| && batch[j] == rows[i]
  {
    if i > 0 {
      FetchedInOrder(rows[1..], q, if Matches(rows[0], q) then limit - 1 else limit, i - 1);
    }
  }

  /** … and nothing else. */
  lemma {:induction false} FetchedIsAll(rows: seq<Tx>, q: Query, limit: nat)
    ensures var all := CountBefore(rows, q, |rows|); |Fetch(rows, q, limit)| == if all <= limit then all else limit
  {
    if rows != [] && limit > 0 {
      FetchedIsAll(rows[1..], q, if Matches(rows[0], q) then limit - 1 else limit);
    }
  }

  lemma {:induction false} FetchedHasFewOlder(rows: seq<Tx>, q: Query, limit: nat, i: nat, j: nat)
    requires UniqueGuids(rows) && i < |rows| && j < |Fetch(rows, q, limit)| && Fetch(rows, q, limit)[j] == rows[i]
    ensures CountBefore(rows, q, i) == j < limit && Matches(rows[i], q)
  {
    if !Matches(rows[0], q) {
      FetchMembers(rows, q, limit);
      FetchedHasFewOlder(rows[1..], q, limit, i - 1, j);
    } else if j > 0 {
      FetchAvoidsHead(rows, q, limit - 1);
      FetchedHasFewOlder(rows[1..], q, limit - 1, i - 1, j - 1);
    } else if i > 0 {
      assert false;
    }
  }

  /** A row is found by its merchant and guid, and under no other merchant. */
  lemma {:induction false} FoundByGuid(rows: seq<Tx>, i: nat, merchant: string)
    requires UniqueGuids(rows) && i < |rows|
    ensures WithGuid(rows, merchant, rows[i].guid) == if merchant == rows[i].merchant then [rows[i]] else []
  {
    var n := |rows| - 1;
    if i < n {
      FoundByGuid(rows[..n], i, merchant);
    } else {
      NotFoundByGuid(rows[..n], merchant, rows[n].guid);
    }
  }

  lemma {:induction false} NotFoundByGuid(rows: seq<Tx>, merchant: string, guid: nat)
    requires forall t :: t in rows ==> t.guid != guid
    ensures WithGuid(rows, merchant, guid) == []
  {
    if rows != [] {
      NotFoundByGuid(rows[..|rows| - 1], merchant, guid);
    }
  }

  /** The five UPDATE statements: which rows they address, and what they write. */
  lemma UpdatesWriteColumns(rows: seq<Tx>, guid: nat, merchant: string, external: string, hash: string,
                            commission: real, i: nat)
    requires i < |rows|
    ensures var t, key := rows[i], Key(guid, merchant, external);
            if t.guid == guid && t.merchant == merchant && t.external == external then
              && Put(rows, key, Reject)[i] == t.(status := Rejected)
              && Put(rows, key, Pend(hash))[i] == t.(status := Init, hash2 := hash)
              && Put(rows, key, Process(hash, commission))[i]
                 == t.(status := Processed, hash2 := hash, commission := commission)
              && Put(rows, key, Settle(hash))[i] == t.(status := Settled, hash3 := hash)
              && Put(rows, key, Finish(hash))[i] == t.(status := Done, hash5 := hash)
            else forall e :: Put(rows, key, e)[i] == t
  {
  }

  /** The table object.  A write whose outcome is `ok == false` is a failed UPDATE or INSERT: nothing changes. */
  class TransactionTable {
    var rows: seq<Tx>

    /** The unique constraint on `guid`. */
    ghost predicate Valid()
      reads this
    {
      UniqueGuids(rows)
    }

    constructor ()
      ensures rows == []
    {
      rows := [];
    }

    /** INSERT with status `init`; the unique index on `guid` refuses a duplicate. */
    method CreateTransaction(guid: nat, merchant: string, external: string, blockchain: string, action: Action,
                             extWallet: string, hash: string, asset: string, issuer: string,
                             amount: real, commission: real, ok: bool)
      returns (created: bool)
      modifies this
      ensures old(Valid()) ==> Valid()
      ensures created <==> ok && forall t :: t in old(rows) ==> t.guid != guid
      ensures rows == if created
                      then old(rows) + [Tx(guid, merchant, external, blockchain, action, extWallet, Init,
                                           asset, issuer, amount, commission, hash, "", "", "")]
                      else old(rows)
    {
      created := ok && forall t :: t in rows ==> t.guid != guid;
      if created {
        rows := rows + [Tx(guid, merchant, external, blockchain, action, extWallet, Init,
                           asset, issuer, amount, commission, hash, "", "", "")];
      }
    }

    method Update(key: Key, e: Edit, ok: bool)
      modifies this
      ensures old(Valid()) ==> Valid()
      ensures rows == if ok then Put(old(rows), key, e) else old(rows)
    {
      if ok {
        rows := Put(rows, key, e);
      }
    }

    method RejectTransaction(key: Key, ok: bool)
      modifies this
      ensures old(Valid()) ==> Valid()
      ensures rows == if ok then Put(old(rows), key, Reject) else old(rows)
    {
      Update(key, Reject, ok);
    }

    method PutInitiatedPendingTransaction(key: Key, hash: string, ok: bool)
      modifies this
      ensures old(Valid()) ==> Valid()
      ensures rows == if ok then Put(old(rows), key, Pend(hash)) else old(rows)
    {
      Update(key, Pend(hash), ok);
    }

    method PutProcessedTransaction(key: Key, hash: string, commission: real, ok: bool)
      modifies this
      ensures old(Valid()) ==> Valid()
      ensures rows == if ok then Put(old(rows), key, Process(hash, commission)) else old(rows)
    {
      Update(key, Process(hash, commission), ok);
    }

    method PutSettledTransaction(key: Key, hash: string, ok: bool)
      modifies this
      ensures old(Valid()) ==> Valid()
      ensures rows == if ok then Put(old(rows), key, Settle(hash)) else old(rows)
    {
      Update(key, Settle(hash), ok);
    }

    method PutDoneTransaction(key: Key, hash: string, ok: bool)
      modifies this
      ensures old(Valid()) ==> Valid()
      ensures rows == if ok then Put(old(rows), key, Finish(hash)) else old(rows)
    {
      Update(key, Finish(hash), ok);
    }

    /** SELECT … ORDER BY created_at LIMIT: the rows are appended one by one; an empty result is `NotFound`. */
    method GetMerchantTrxForProcessingInBlockChain(q: Query, limit: nat) returns (r: FetchResult)
      ensures r == if Fetch(rows, q, limit) == [] then NotFound else Found(Fetch(rows, q, limit))
    {
      var batch := [];
      var i := 0;
      ghost var all := Fetch(rows, q, limit);
      ghost var rest := all;
      assert rows[0..] == rows;
      while i < |rows| && |batch| < limit
        invariant 0 <= i <= |rows| && |batch| <= limit
        invariant rest == Fetch(rows[i..], q, limit - |batch|)
        invariant all == batch + rest
      {
        FetchStep(rows, i, q, limit - |batch|);
        ghost var seen := batch;
        i := i + 1;
        if Matches(rows[i - 1], q) {
          batch := batch + [rows[i - 1]];
        }
        AppendAssociates(seen, rows[i - 1], Fetch(rows[i..], q, limit - |batch|));
        rest := Fetch(rows[i..], q, limit - |batch|);
      }
      assert batch + [] == batch;
      r := if batch == [] then NotFound else Found(batch);
    }

    /** All `init` rows of one user of the merchant, without a limit. */
    method GetInitTransactions(merchant: string, external: string, blockchain: string, action: Action)
      returns (r: FetchResult)
      ensures var batch := Initiated(rows, merchant, external, blockchain, action);
              r == if batch == [] then NotFound else Found(batch)
    {
      var batch := [];
      assert rows[..0] == [];
      for i := 0 to |rows|
        invariant batch == Initiated(rows[..i], merchant, external, blockchain, action)
      {
        assert rows[..i + 1][..i] == rows[..i];
        if IsInitiated(rows[i], merchant, external, blockchain, action) {
          batch := batch + [rows[i]];
        }
      }
      assert rows[..|rows|] == rows;
      r := if batch == [] then NotFound else Found(batch);
    }

    /** Exactly one row is required. */
    method GetTransactionByGuid(merchant: string, guid: nat) returns (r: FetchResult)
      ensures var s := WithGuid(rows, merchant, guid); r == if |s| == 1 then Found(s) else NotFound
    {
      var found := [];
      assert rows[..0] == [];
      for i := 0 to |rows|
        invariant found == WithGuid(rows[..i], merchant, guid)
      {
        assert rows[..i + 1][..i] == rows[..i];
        if rows[i].merchant == merchant && rows[i].guid == guid {
          found := found + [rows[i]];
        }
      }
      assert rows[..|rows|] == rows;
      r := if |found| == 1 then Found(found) else NotFound;
    }
  }
}
