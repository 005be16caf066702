/** The deposit stream (processor-coreum/deposit.go): a cursor walks over the wallet table, one wallet a tick, and
    reports the balances it finds to the deposit callback. */
module DepositStream {
  import opened Ledger
  import opened Strings
  import opened KeyStore
  import Denoms

  datatype Balance = Balance(asset: string, issuer: string, amount: real)

  datatype Report = Report(merchant: string, external: string, wallet: string, balance: Balance)

  predicate Live(r: Record, id: nat) {
    r.id > id && !r.deleted
  }

  /** The records that `GetNext` selects, in id order. */
  function After(records: seq<Record>, id: nat): seq<Record> {
    if records == [] then []
    else
      var last := records[|records| - 1];
      After(records[..|records| - 1], id) + (if Live(last, id) then [last] else [])
  }

  lemma {:induction false} AfterMembers(records: seq<Record>, id: nat)
    ensures forall r :: r in After(records, id) <==> r in records && Live(r, id)
  {
    if records != [] {
      var n := |records| - 1;
      AfterMembers(records[..n], id);
      assert records == records[..n] + [records[n]];
    }
  }

  function Next(records: seq<Record>, id: nat): Option<Record> {
    if After(records, id) == [] then None else Some(After(records, id)[0])
  }

  method GetNext(records: seq<Record>, id: nat, limit: nat) returns (s: seq<Record>)
    ensures s == if |After(records, id)| <= limit then After(records, id) else After(records, id)[..limit]
  {
    s := [];
    var i := 0;
    assert records[..0] == [];
    while i < |records| && |s| < limit
      invariant 0 <= i <= |records|
      invariant s == After(records[..i], id) && |s| <= limit
    {
      assert records[..i + 1][..i] == records[..i];
      if Live(records[i], id) {
        s := s + [records[i]];
      }
      i := i + 1;
    }
    AfterExtends(records, i, id);
    assert i == |records| ==> records[..i] == records;
  }

  lemma {:induction false} AfterExtends(records: seq<Record>, i: nat, id: nat)
    requires i <= |records|
    ensures After(records[..i], id) <= After(records, id)
  {
    if i == |records| {
      assert records[..i] == records;
    } else {
      var n := |records| - 1;
      AfterExtends(records[..n], i, id);
      assert records[..n][..i] == records[..i];
    }
  }

  /** Wallets of the merchant itself: their id contains the merchant's. */
  predicate Internal(r: Record) {
    Contains(r.external, r.merchant)
  }

  predicate Reported(b: Balance, native: string) {
    b.amount > 0.0 && b.asset != native
  }

  function ReportsOf(r: Record, balances: seq<Balance>, native: string): (reports: seq<Report>)
    ensures forall p :: p in reports ==> p.merchant == r.merchant && p.external == r.external && p.wallet == r.key
    ensures forall p :: p in reports ==> p.balance in balances && Reported(p.balance, native)
    ensures forall b :: b in balances && Reported(b, native) ==> Report(r.merchant, r.external, r.key, b) in reports
  {
    if balances == [] then []
    else
      var last := balances[|balances| - 1];
      ReportsOf(r, balances[..|balances| - 1], native)
      + (if Reported(last, native) then [Report(r.merchant, r.external, r.key, last)] else [])
  }

  /** Every denom that the wallet holds, native or not, can be scanned. */
  predicate Scannable(held: seq<(string, nat)>, native: string) {
    forall i :: 0 <= i < |held| ==> Denoms.Scan(held[i].0, native).Balance?
  }

  function ScannedBalances(held: seq<(string, nat)>, native: string): (balances: seq<Balance>)
    requires Scannable(held, native)
    ensures |balances| == |held|
  {
    seq(|held|, i requires 0 <= i < |held| =>
      var scanned := Denoms.Scan(held[i].0, native);
      Balance(scanned.asset, scanned.issuer, held[i].1 as real))
  }

  /** `GetAssetsBalance` for all assets: the denoms the wallet holds, scanned one by one; `None` where the source
      indexes out of range, which is a panic. */
  method GetAssetsBalance(held: seq<(string, nat)>, native: string) returns (r: Option<seq<Balance>>)
    ensures r.Some? <==> Scannable(held, native)
    ensures r.Some? ==> r.value == ScannedBalances(held, native)
  {
    var balances: seq<Balance> := [];
    for i := 0 to |held|
      invariant Scannable(held[..i], native)
      invariant balances == ScannedBalances(held[..i], native)
    {
      var scanned := Denoms.Scan(held[i].0, native);
      if scanned.OutOfRange? {
        return None;
      }
      balances := balances + [Balance(scanned.asset, scanned.issuer, held[i].1 as real)];
      assert held[..i + 1] == held[..i] + [held[i]];
    }
    assert held[..|held|] == held;
    r := Some(balances);
  }

  /** Whatever is reported for a wallet is a denom that it holds: sending the reported asset and issuer sends that very
      denom, provided it has a single separator. */
  lemma ReportedDenomIsHeld(r: Record, held: seq<(string, nat)>, native: string, p: Report)
    requires Scannable(held, native) && p in ReportsOf(r, ScannedBalances(held, native), native)
    ensures exists i :: 0 <= i < |held| && held[i].1 as real == p.balance.amount > 0.0 && held[i].0 != native
                        && (|Split(held[i].0, '-')| == 2 ==>
                              Denoms.Print(p.balance.asset, p.balance.issuer) == held[i].0)
  {
    var balances := ScannedBalances(held, native);
    var i :| 0 <= i < |balances| && balances[i] == p.balance;
    assert Denoms.Scan(held[i].0, native).Balance?;
    if |Split(held[i].0, '-')| == 2 {
      Denoms.SentDenomIsScannedDenom(held[i].0, native);
    }
  }

  /** Conversely, every foreign denom that the wallet holds any of is reported, with its amount. */
  lemma HeldDenomIsReported(r: Record, held: seq<(string, nat)>, native: string, i: nat) returns (p: Report)
    requires Scannable(held, native) && i < |held| && held[i].0 != native && held[i].1 > 0
    requires Split(held[i].0, '-')[0] != native
    ensures p in ReportsOf(r, ScannedBalances(held, native), native)
    ensures p.merchant == r.merchant && p.external == r.external && p.wallet == r.key
    ensures p.balance.amount == held[i].1 as real
    ensures var parts := Split(held[i].0, '-');
            |parts| >= 2 && p.balance.asset == parts[0] && p.balance.issuer == parts[1]
  {
    assert Denoms.Scan(held[i].0, native).Balance?;
    var b := ScannedBalances(held, native)[i];
    p := Report(r.merchant, r.external, r.key, b);
    assert b in ScannedBalances(held, native) && Reported(b, native);
  }

  class Stream {
    const store: KeysPSQL
    const native: string
    var next: nat

    constructor (store: KeysPSQL, native: string)
      ensures this.store == store && this.native == native && next == 0
    {
      this.store := store;
      this.native := native;
      next := 0;
    }

    /** One tick. `held` is what the chain says the visited wallet holds, if it answers. The result is `None` if the
        goroutine panics, and the service with it; started again, it begins with a cursor of zero. */
    method Tick(readable: bool, held: Option<seq<(string, nat)>>) returns (reports: Option<seq<Report>>)
      modifies this`next
      ensures var visit := if readable then Next(store.records, old(next)) else None;
              var asked := visit.Some? && held.Some? && !Contains(visit.value.external, visit.value.merchant);
              && (reports.None? <==> asked && !Scannable(held.value, native))
              && next == (if reports.None? then old(next) else if visit.Some? then visit.value.id else 0)
              && (reports.Some? ==>
                    reports.value == if asked
                                     then ReportsOf(visit.value, ScannedBalances(held.value, native), native)
                                     else [])
    {
      var records: seq<Record> := [];
      if readable {
        records := GetNext(store.records, next, 1);
      }
      if !readable || |records| == 0 {
        next := 0;
        return Some([]);
      }
      var record := records[|records| - 1];
      if Internal(record) || held.None? {
        next := record.id;
        return Some([]);
      }
      var balances := GetAssetsBalance(held.value, native);
      if balances.None? {
        return None;
      }
      var balance := balances.value;
      var reported := [];
      assert balance[..0] == [];
      for i := 0 to |balance|
        invariant reported == ReportsOf(record, balance[..i], native)
      {
        assert balance[..i + 1][..i] == balance[..i];
        if balance[i].amount > 0.0 && balance[i].asset != native {
          reported := reported + [Report(record.merchant, record.external, record.key, balance[i])];
        }
      }
      assert balance[..|balance|] == balance;
      next := record.id;
      reports := Some(reported);
    }
  }

  // Fairness of the cursor. Ticks see a table that grows by operations of other requests.

  ghost predicate Ascending(records: seq<Record>) {
    forall i, j :: 0 <= i < j < |records| ==> records[i].id < records[j].id
  }

  /** What inserts and updates do to a table: every record keeps its place and everything but its value. */
  ghost predicate Grows(a: seq<Record>, b: seq<Record>) {
    && |a| <= |b|
    && forall i :: 0 <= i < |a| ==> b[i].(value := a[i].value) == a[i]
  }

  /** The tables seen by successive ticks. */
  ghost predicate History(tables: seq<seq<Record>>) {
    && (forall i :: 0 <= i < |tables| ==> Ascending(tables[i]))
    && (forall i, j :: 0 <= i <= j < |tables| ==> Grows(tables[i], tables[j]))
  }

  /** The cursor before tick `i`, from a wrap on. */
  function CursorAt(tables: seq<seq<Record>>, i: nat): nat
    requires i <= |tables|
  {
    if i == 0 then 0
    else
      var visit := Next(tables[i - 1], CursorAt(tables, i - 1));
      if visit.Some? then visit.value.id else 0
  }

  function VisitAt(tables: seq<seq<Record>>, i: nat): Option<Record>
    requires i < |tables|
  {
    Next(tables[i], CursorAt(tables, i))
  }

  /** The first `n` ticks do not wrap. */
  ghost predicate Runs(tables: seq<seq<Record>>, n: nat) {
    n <= |tables| && forall i :: 0 <= i < n ==> VisitAt(tables, i).Some?
  }

  predicate VisitedBefore(tables: seq<seq<Record>>, n: nat, id: nat)
    requires n <= |tables|
  {
    exists i :: 0 <= i < n && VisitAt(tables, i).Some? && VisitAt(tables, i).value.id == id
  }

  /** The next record is the first live one beyond the cursor. */
  lemma {:induction false} NextIsFirst(records: seq<Record>, id: nat, r: Record)
    requires Ascending(records) && r in records && Live(r, id)
    ensures Next(records, id).Some? && Next(records, id).value.id <= r.id
  {
    var n := |records| - 1;
    if r in records[..n] {
      NextIsFirst(records[..n], id, r);
    } else {
      assert r == records[n];
      if After(records[..n], id) != [] {
        AfterMembers(records[..n], id);
        assert After(records[..n], id)[0] in records[..n];
      }
    }
  }

  /** Ids of successive visits strictly increase until the wrap. */
  lemma {:induction false} VisitsIncrease(tables: seq<seq<Record>>, i: nat, j: nat)
    requires Runs(tables, j + 1) && i < j
    ensures VisitAt(tables, i).value.id < VisitAt(tables, j).value.id
  {
    assert VisitAt(tables, j).Some? && VisitAt(tables, j - 1).Some?;
    AfterMembers(tables[j], CursorAt(tables, j));
    assert VisitAt(tables, j).value in After(tables[j], CursorAt(tables, j));
    if i < j - 1 {
      VisitsIncrease(tables, i, j - 1);
    }
  }

  /** Everything live at the start up to the cursor has been visited. */
  lemma {:induction false} NothingIsSkipped(tables: seq<seq<Record>>, n: nat, k: nat)
    requires |tables| >= 1 && History(tables) && Runs(tables, n)
    requires k < |tables[0]| && Live(tables[0][k], 0) && tables[0][k].id <= CursorAt(tables, n)
    ensures VisitedBefore(tables, n, tables[0][k].id)
  {
    if n > 0 {
      var i := n - 1;
      assert VisitAt(tables, i).Some?;
      var id, cursor := tables[0][k].id, CursorAt(tables, i);
      if id <= cursor {
        NothingIsSkipped(tables, i, k);
      } else {
        assert Grows(tables[0], tables[i]);
        NextIsFirst(tables[i], cursor, tables[i][k]);
        assert VisitAt(tables, i).value.id == id;
      }
    }
  }

  /** From one wrap to the next, the scan visits in strictly increasing id order, and visits every wallet that was
      live at the first wrap exactly once, whatever is inserted or updated meanwhile. */
  lemma CycleVisitsAllOnce(tables: seq<seq<Record>>, n: nat, k: nat)
    requires n < |tables| && History(tables) && Runs(tables, n) && VisitAt(tables, n).None?
    requires k < |tables[0]| && Live(tables[0][k], 0)
    ensures exists i :: 0 <= i < n && VisitAt(tables, i).value.id == tables[0][k].id
                        && forall j :: 0 <= j < n && VisitAt(tables, j).value.id == tables[0][k].id ==> j == i
    ensures forall i, j :: 0 <= i < j < n ==> VisitAt(tables, i).value.id < VisitAt(tables, j).value.id
  {
    forall i, j | 0 <= i < j < n ensures VisitAt(tables, i).value.id < VisitAt(tables, j).value.id {
      VisitsIncrease(tables, i, j);
    }
    var id := tables[0][k].id;
    if id > CursorAt(tables, n) {
      assert Grows(tables[0], tables[n]);
      NextIsFirst(tables[n], CursorAt(tables, n), tables[n][k]);
    }
    NothingIsSkipped(tables, n, k);
    var i :| 0 <= i < n && VisitAt(tables, i).value.id == id;
    forall j | 0 <= j < n && VisitAt(tables, j).value.id == id ensures j == i {
      assert !(i < j) && !(j < i);
    }
  }

  /** No scan from the start comes to a later wallet before this one: while the tick that visits this wallet panics, no
      later wallet is visited at all. */
  lemma NobodyPastAStop(tables: seq<seq<Record>>, n: nat, k: nat)
    requires n < |tables| && History(tables) && Runs(tables, n + 1)
    requires k < |tables[0]| && Live(tables[0][k], 0) && VisitAt(tables, n).value.id > tables[0][k].id
    ensures VisitedBefore(tables, n, tables[0][k].id)
  {
    NothingIsSkipped(tables, n + 1, k);
  }

  /** Visiting a record leaves exactly the later ones. */
  lemma {:induction false} AfterVisit(records: seq<Record>, id: nat)
    requires Ascending(records) && After(records, id) != []
    ensures After(records, After(records, id)[0].id) == After(records, id)[1..]
  {
    var n := |records| - 1;
    var before, last := After(records[..n], id), records[n];
    if before == [] {
      NothingAfterLast(records[..n], last.id);
    } else {
      AfterVisit(records[..n], id);
      var first := before[0];
      assert id < first.id < last.id by {
        AfterMembers(records[..n], id);
        assert first in records[..n];
        var k :| 0 <= k < n && records[k] == first;
      }
      var tail := if Live(last, id) then [last] else [];
      assert (before + tail)[1..] == before[1..] + tail;
    }
  }

  lemma {:induction false} NothingAfterLast(records: seq<Record>, id: nat)
    requires forall r :: r in records ==> r.id < id
    ensures After(records, id) == []
  {
    if records != [] {
      NothingAfterLast(records[..|records| - 1], id);
    }
  }

  lemma {:induction false} AfterVisits(records: seq<Record>, i: nat)
    requires Ascending(records) && i < |After(records, 0)|
    ensures After(records, After(records, 0)[i].id) == After(records, 0)[i + 1..]
  {
    var live := After(records, 0);
    if i == 0 {
      AfterVisit(records, 0);
    } else {
      AfterVisits(records, i - 1);
      AfterVisit(records, live[i - 1].id);
      assert live[i..][1..] == live[i + 1..];
    }
  }

  /** While the table stays as it is, a cycle visits its live wallets one after the other, in order, and then wraps:
      with n of them it takes exactly n + 1 ticks. */
  lemma {:induction false} UnchangedCycle(records: seq<Record>, tables: seq<seq<Record>>, i: nat)
    requires Ascending(records) && i < |tables| && forall t :: t in tables ==> t == records
    requires i <= |After(records, 0)|
    ensures CursorAt(tables, i) == if i == 0 then 0 else After(records, 0)[i - 1].id
    ensures VisitAt(tables, i) == if i < |After(records, 0)| then Some(After(records, 0)[i]) else None
  {
    if i > 0 {
      UnchangedCycle(records, tables, i - 1);
      AfterVisits(records, i - 1);
    }
    assert tables[i] in tables;
  }

  function LiveUpTo(records: seq<Record>, id: nat): nat {
    if records == [] then 0
    else
      var last := records[|records| - 1];
      LiveUpTo(records[..|records| - 1], id) + (if !last.deleted && 0 < last.id <= id then 1 else 0)
  }

  lemma {:induction false} LiveUpToGrows(a: seq<Record>, b: seq<Record>, id: nat, id': nat)
    requires Grows(a, b) && id <= id'
    ensures LiveUpTo(a, id) <= LiveUpTo(b, id')
  {
    if b != [] {
      var n := |b| - 1;
      if |a| == |b| {
        assert b[n].(value := a[n].value) == a[n];
        LiveUpToGrows(a[..n], b[..n], id, id');
      } else {
        LiveUpToGrows(a, b[..n], id, id');
      }
    }
  }

  /** … by one more for a live record in between. */
  lemma {:induction false} LiveUpToPasses(a: seq<Record>, b: seq<Record>, id: nat, id': nat, k: nat)
    requires Grows(a, b) && k < |a| && Live(a[k], id) && a[k].id <= id'
    ensures LiveUpTo(a, id) < LiveUpTo(b, id')
    decreases |b|
  {
    var n := |b| - 1;
    if |a| == |b| {
      assert b[n].(value := a[n].value) == a[n];
      if k == n {
        LiveUpToGrows(a[..n], b[..n], id, id');
      } else {
        LiveUpToPasses(a[..n], b[..n], id, id', k);
      }
    } else {
      LiveUpToPasses(a, b[..n], id, id', k);
    }
  }

  /** However much is inserted, a cycle takes at most one tick more than there are live wallets in the end. */
  lemma {:induction false} CycleIsShort(tables: seq<seq<Record>>, n: nat, last: nat)
    requires History(tables) && n <= last < |tables| && Runs(tables, n)
    ensures n <= LiveUpTo(tables[last], CursorAt(tables, n))
  {
    if n > 0 {
      var i: nat := n - 1;
      assert VisitAt(tables, i).Some?;
      CycleIsShort(tables, i, i);
      VisitPassesOne(tables, i, last);
      assert i + 1 == n;
    }
  }

  lemma VisitPassesOne(tables: seq<seq<Record>>, i: nat, last: nat)
    requires History(tables) && i < last < |tables| && VisitAt(tables, i).Some?
    ensures LiveUpTo(tables[i], CursorAt(tables, i)) < LiveUpTo(tables[last], CursorAt(tables, i + 1))
  {
    var cursor, visit := CursorAt(tables, i), VisitAt(tables, i).value;
    AfterMembers(tables[i], cursor);
    assert visit in After(tables[i], cursor);
    var k :| 0 <= k < |tables[i]| && tables[i][k] == visit;
    LiveUpToPasses(tables[i], tables[last], cursor, visit.id, k);
  }

  // The history of a table under the processor's operations.

  lemma ValidIsAscending(t: Table)
    requires Valid(t)
    ensures Ascending(t.records)
  {
    forall i, j | 0 <= i < j < |t.records| ensures t.records[i].id < t.records[j].id {
      assert Apart(t.records[i], t.records[j]);
    }
  }

  lemma OperationGrows(t: Table, op: Op)
    ensures Grows(t.records, Apply(t, op).0.records)
  {
    if op.made.Some? {
      forall i | 0 <= i < |t.records| {
        PutKeepsPlace(t, op.merchant, op.external, op.made.value.0, op.made.value.1, i);
      }
    }
  }

  lemma GrowsFurther(a: seq<Record>, b: seq<Record>, c: seq<Record>)
    requires Grows(a, b) && Grows(b, c)
    ensures Grows(a, c)
  {
    forall i | 0 <= i < |a| ensures c[i].(value := a[i].value) == a[i] {
      assert c[i].(value := b[i].value) == b[i];
    }
  }

  /** Any operations on the table make it grow in this sense, so that the cursor's fairness holds over all of them. */
  lemma {:induction false} OperationsGrow(t: Table, ops: seq<Op>)
    requires Valid(t)
    ensures Grows(t.records, Run(t, ops).records) && Ascending(Run(t, ops).records)
  {
    RunKeepsValid(t, ops);
    ValidIsAscending(Run(t, ops));
    if ops != [] {
      var before := Run(t, ops[..|ops| - 1]);
      OperationsGrow(t, ops[..|ops| - 1]);
      OperationGrows(before, ops[|ops| - 1]);
      GrowsFurther(t.records, before.records, Run(t, ops).records);
    }
  }
}
