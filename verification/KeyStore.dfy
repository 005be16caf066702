/** The wallet table (modules/storage/keys.go, cmd/scripts/011-coreum_wallets.sql) and the operations of the
    processor that bind users to wallets (processor-coreum/deposit.go, createwallet.go, issue.go). */
module KeyStore {
  import opened Ledger

  datatype Record = Record(id: nat, merchant: string, external: string, key: string, value: string, deleted: bool)

  /** The table in id order, and the next value of its id sequence, which an insert consumes even if it ends up
      updating or failing. */
  datatype Table = Table(records: seq<Record>, nextId: nat)

  predicate SameUser(r: Record, merchant: string, external: string) {
    r.merchant == merchant && r.external == external
  }

  /** Ids ascend, and both unique indexes hold: by key, and by merchant and external id. */
  ghost predicate Valid(t: Table) {
    && (forall i :: 0 <= i < |t.records| ==> t.records[i].id < t.nextId)
    && (forall i, j :: 0 <= i < j < |t.records| ==> Apart(t.records[i], t.records[j]))
  }

  predicate Apart(r: Record, s: Record) {
    r.id < s.id && r.key != s.key && !SameUser(s, r.merchant, r.external)
  }

  function ByKey(records: seq<Record>, key: string): (r: Option<Record>)
    ensures r.Some? ==> r.value in records && r.value.key == key
    ensures r.None? ==> forall s :: s in records ==> s.key != key
  {
    if records == [] then None
    else if records[0].key == key then Some(records[0])
    else ByKey(records[1..], key)
  }

  function ByUser(records: seq<Record>, merchant: string, external: string): (r: Option<Record>)
    ensures r.Some? ==> r.value in records && r.value.merchant == merchant && r.value.external == external
    ensures r.None? ==> forall s :: s in records ==> s.merchant != merchant || s.external != external
  {
    if records == [] then None
    else if SameUser(records[0], merchant, external) then Some(records[0])
    else ByUser(records[1..], merchant, external)
  }

  /** The record with a key gets a new value; everything else about it stays. */
  function Revalued(records: seq<Record>, key: string, value: string): (r: seq<Record>)
    ensures |r| == |records|
    ensures forall i :: 0 <= i < |r| ==>
              r[i] == if records[i].key == key then records[i].(value := value) else records[i]
  {
    if records == [] then []
    else
      var r := records[0];
      [if r.key == key then r.(value := value) else r] + Revalued(records[1..], key, value)
  }

  /** `Put`: a taken key updates the value only, a taken user is an error, and otherwise a row is added. */
  function AfterPut(t: Table, merchant: string, external: string, key: string, value: string): (Table, Option<nat>) {
    var byKey := ByKey(t.records, key);
    if byKey.Some? then (Table(Revalued(t.records, key, value), t.nextId + 1), Some(byKey.value.id))
    else if ByUser(t.records, merchant, external).Some? then (t.(nextId := t.nextId + 1), None)
    else (Table(t.records + [Record(t.nextId, merchant, external, key, value, false)], t.nextId + 1), Some(t.nextId))
  }

  /** A key pair made for a new wallet: its address and the stored wallet. `None` stands for a creation that fails. */
  type Made = Option<(string, string)>

  datatype Answer = Failed | Address(key: string)

  datatype Op =
    | Deposit(merchant: string, external: string, readable: bool, made: Made, stored: bool)
    | CreateWallet(merchant: string, external: string, made: Made, stored: bool)

  /** The processor's operations on the table. Issuing a token binds the issuer's id the way `Deposit` does. */
  function Apply(t: Table, op: Op): (Table, Answer) {
    match op
    case Deposit(merchant, external, readable, made, stored) =>
      if !readable then (t, Failed)
      else
        var bound := ByUser(t.records, merchant, external);
        if bound.Some? then (t, Address(bound.value.key))
        else if made.None? || !stored then (t, Failed)
        else
          var (t', id) := AfterPut(t, merchant, external, made.value.0, made.value.1);
          (t', if id.Some? then Address(made.value.0) else Failed)
    case CreateWallet(merchant, external, made, stored) =>
      if made.None? || !stored then (t, Failed)
      else
        var (t', id) := AfterPut(t, merchant, external, made.value.0, made.value.1);
        (t', if id.Some? then Address(made.value.0) else Failed)
  }

  function Run(t: Table, ops: seq<Op>): Table {
    if ops == [] then t else Apply(Run(t, ops[..|ops| - 1]), ops[|ops| - 1]).0
  }

  function AnswerAt(t: Table, ops: seq<Op>, i: nat): Answer
    requires i < |ops|
  {
    Apply(Run(t, ops[..i]), ops[i]).1
  }

  class KeysPSQL {
    var records: seq<Record>
    var nextId: nat

    function State(): Table
      reads this
    {
      Table(records, nextId)
    }

    constructor ()
      ensures State() == Table([], 1) && Valid(State())
    {
      records := [];
      nextId := 1;
    }

    method GetRecordByKey(key: string) returns (r: Option<Record>)
      ensures r == ByKey(records, key)
    {
      var i := 0;
      while i < |records|
        invariant 0 <= i <= |records|
        invariant ByKey(records, key) == ByKey(records[i..], key)
      {
        if records[i].key == key {
          return Some(records[i]);
        }
        i := i + 1;
      }
      r := None;
    }

    method GetRecordByUser(merchant: string, external: string) returns (r: Option<Record>)
      ensures r == ByUser(records, merchant, external)
    {
      var i := 0;
      while i < |records|
        invariant 0 <= i <= |records|
        invariant ByUser(records, merchant, external) == ByUser(records[i..], merchant, external)
      {
        if SameUser(records[i], merchant, external) {
          return Some(records[i]);
        }
        i := i + 1;
      }
      r := None;
    }

    method Put(merchant: string, external: string, key: string, value: string) returns (id: Option<nat>)
      modifies this
      ensures (State(), id) == AfterPut(old(State()), merchant, external, key, value)
      ensures old(Valid(State())) ==> Valid(State())
    {
      ghost var before := State();
      if Valid(before) {
        PutKeepsValid(before, merchant, external, key, value);
      }
      ghost var after := AfterPut(before, merchant, external, key, value).0;
      var byKey := GetRecordByKey(key);
      var byUser := GetRecordByUser(merchant, external);
      var next := nextId;
      nextId := nextId + 1;
      if byKey.Some? {
        records := Revalued(records, key, value);
        assert State() == after;
        return Some(byKey.value.id);
      }
      if byUser.Some? {
        return None;
      }
      records := records + [Record(next, merchant, external, key, value, false)];
      assert State() == after;
      id := Some(next);
    }
  }

  class CoreumProcessing {
    const store: KeysPSQL

    constructor (store: KeysPSQL)
      ensures this.store == store
    {
      this.store := store;
    }

    method Deposit(merchant: string, external: string, readable: bool, made: Made, stored: bool) returns (r: Answer)
      modifies store
      ensures (store.State(), r) == Apply(old(store.State()), Op.Deposit(merchant, external, readable, made, stored))
      ensures old(Valid(store.State())) ==> Valid(store.State())
    {
      if !readable {
        return Failed;
      }
      var bound := store.GetRecordByUser(merchant, external);
      if bound.Some? {
        return Address(bound.value.key);
      }
      if made.None? || !stored {
        return Failed;
      }
      var id := store.Put(merchant, external, made.value.0, made.value.1);
      r := if id.Some? then Address(made.value.0) else Failed;
    }

    method CreateWallet(merchant: string, external: string, made: Made, stored: bool) returns (r: Answer)
      modifies store
      ensures (store.State(), r) == Apply(old(store.State()), Op.CreateWallet(merchant, external, made, stored))
      ensures old(Valid(store.State())) ==> Valid(store.State())
    {
      if made.None? || !stored {
        return Failed;
      }
      var id := store.Put(merchant, external, made.value.0, made.value.1);
      r := if id.Some? then Address(made.value.0) else Failed;
    }
  }

  // The indexes.

  lemma PutKeepsValid(t: Table, merchant: string, external: string, key: string, value: string)
    requires Valid(t)
    ensures Valid(AfterPut(t, merchant, external, key, value).0)
  {
    if ByKey(t.records, key).Some? {
      RevaluedIsValid(t, key, value);
    } else if ByUser(t.records, merchant, external).None? {
      InsertedIsValid(t, Record(t.nextId, merchant, external, key, value, false));
    }
  }

  lemma RevaluedIsValid(t: Table, key: string, value: string)
    requires Valid(t)
    ensures Valid(Table(Revalued(t.records, key, value), t.nextId + 1))
  {
    var records := Revalued(t.records, key, value);
    forall i, j | 0 <= i < j < |records| ensures Apart(records[i], records[j]) {
      var r, s := t.records[i], t.records[j];
      assert Apart(r, s);
      assert Apart(r.(value := records[i].value), s.(value := records[j].value));
    }
  }

  lemma InsertedIsValid(t: Table, r: Record)
    requires Valid(t) && r.id == t.nextId
    requires ByKey(t.records, r.key).None? && ByUser(t.records, r.merchant, r.external).None?
    ensures Valid(Table(t.records + [r], t.nextId + 1))
  {
    forall i | 0 <= i < |t.records| ensures Apart(t.records[i], r) {
      assert t.records[i] in t.records;
    }
  }

  /** Whatever is put, a record stays where it is, with everything but its value. */
  lemma PutKeepsPlace(t: Table, merchant: string, external: string, key: string, value: string, i: nat)
    requires i < |t.records|
    ensures var t' := AfterPut(t, merchant, external, key, value).0;
            i < |t'.records| && t'.records[i].(value := t.records[i].value) == t.records[i]
  {
  }

  /** The answer of a put is the id of the record that now holds the address and the value; it fails if the user is
      bound to another address, and then changes no record. */
  lemma PutAnswersTheRecord(t: Table, merchant: string, external: string, key: string, value: string)
    ensures var (t', id) := AfterPut(t, merchant, external, key, value);
            && (id.Some? ==> exists r :: r in t'.records && r.id == id.value && r.key == key && r.value == value)
            && (id.None? <==> && (forall r :: r in t.records ==> r.key != key)
                              && exists r :: r in t.records && r.merchant == merchant && r.external == external)
            && (id.None? ==> t'.records == t.records)
  {
    var t' := AfterPut(t, merchant, external, key, value).0;
    var byKey := ByKey(t.records, key);
    if byKey.Some? {
      var i :| 0 <= i < |t.records| && t.records[i] == byKey.value;
      assert t'.records[i] == byKey.value.(value := value);
    } else if ByUser(t.records, merchant, external).None? {
      assert t'.records[|t.records|] in t'.records;
    }
  }

  lemma RunKeepsValid(t: Table, ops: seq<Op>)
    requires Valid(t)
    ensures Valid(Run(t, ops))
  {
    if ops != [] {
      RunKeepsValid(t, ops[..|ops| - 1]);
      ApplyKeepsValid(Run(t, ops[..|ops| - 1]), ops[|ops| - 1]);
    }
  }

  lemma ApplyKeepsValid(t: Table, op: Op)
    requires Valid(t)
    ensures Valid(Apply(t, op).0)
  {
    if op.made.Some? {
      PutKeepsValid(t, op.merchant, op.external, op.made.value.0, op.made.value.1);
    }
  }

  /** In a valid table both lookups find any record by its own key and by its own user. */
  lemma LookupsFind(t: Table, r: Record)
    requires Valid(t) && r in t.records
    ensures ByKey(t.records, r.key) == Some(r) && ByUser(t.records, r.merchant, r.external) == Some(r)
  {
    var i :| 0 <= i < |t.records| && t.records[i] == r;
    forall n | 0 <= n < |t.records| && n != i
      ensures t.records[n].key != r.key && !SameUser(t.records[n], r.merchant, r.external)
    {
      assert if n < i then Apart(t.records[n], t.records[i]) else Apart(t.records[i], t.records[n]);
    }
  }

  /** The by-address and the by-user view always agree, after any operations. */
  lemma ViewsAgree(t: Table, ops: seq<Op>, merchant: string, external: string, key: string)
    requires Valid(t)
    ensures var records := Run(t, ops).records;
            (exists r :: ByUser(records, merchant, external) == Some(r) && r.key == key)
            <==> (exists r :: ByKey(records, key) == Some(r) && SameUser(r, merchant, external))
  {
    RunKeepsValid(t, ops);
    var t' := Run(t, ops);
    if r :| ByUser(t'.records, merchant, external) == Some(r) && r.key == key {
      LookupsFind(t', r);
    }
    if r :| ByKey(t'.records, key) == Some(r) && SameUser(r, merchant, external) {
      LookupsFind(t', r);
    }
  }

  // Bindings.

  predicate Bound(t: Table, merchant: string, external: string, id: nat, key: string) {
    var r := ByUser(t.records, merchant, external);
    r.Some? && r.value.id == id && r.value.key == key
  }

  lemma PutKeepsBinding(t: Table, merchant: string, external: string, key: string, value: string, r: Record)
    requires Valid(t) && r in t.records
    ensures var t' := AfterPut(t, merchant, external, key, value).0; Bound(t', r.merchant, r.external, r.id, r.key)
  {
    var t' := AfterPut(t, merchant, external, key, value).0;
    PutKeepsValid(t, merchant, external, key, value);
    var i :| 0 <= i < |t.records| && t.records[i] == r;
    PutKeepsPlace(t, merchant, external, key, value, i);
    LookupsFind(t', t'.records[i]);
  }

  lemma ApplyKeepsBinding(t: Table, op: Op, merchant: string, external: string, id: nat, key: string)
    requires Valid(t) && Bound(t, merchant, external, id, key)
    ensures Bound(Apply(t, op).0, merchant, external, id, key)
  {
    if op.made.Some? {
      PutKeepsBinding(t, op.merchant, op.external, op.made.value.0, op.made.value.1,
                      ByUser(t.records, merchant, external).value);
    }
  }

  /** A binding is permanent: no sequence of operations changes which address, or which id, a bound user has. */
  lemma {:induction false} BindingIsPermanent(t: Table, ops: seq<Op>, merchant: string, external: string, id: nat,
                                              key: string)
    requires Valid(t) && Bound(t, merchant, external, id, key)
    ensures Bound(Run(t, ops), merchant, external, id, key)
  {
    if ops != [] {
      var before := ops[..|ops| - 1];
      BindingIsPermanent(t, before, merchant, external, id, key);
      RunKeepsValid(t, before);
      ApplyKeepsBinding(Run(t, before), ops[|ops| - 1], merchant, external, id, key);
    }
  }

  lemma NewKeyIsBound(t: Table, merchant: string, external: string, key: string, value: string)
    requires Valid(t) && ByUser(t.records, merchant, external).None? && ByKey(t.records, key).None?
    ensures Bound(AfterPut(t, merchant, external, key, value).0, merchant, external, t.nextId, key)
  {
    var t' := AfterPut(t, merchant, external, key, value).0;
    PutKeepsValid(t, merchant, external, key, value);
    LookupsFind(t', t'.records[|t.records|]);
  }

  lemma {:induction false} RevaluedKeepsUsers(records: seq<Record>, key: string, value: string, merchant: string,
                                              external: string)
    requires ByUser(records, merchant, external).None?
    ensures ByUser(Revalued(records, key, value), merchant, external).None?
  {
    if records != [] {
      assert Revalued(records, key, value)[1..] == Revalued(records[1..], key, value);
      RevaluedKeepsUsers(records[1..], key, value, merchant, external);
    }
  }

  lemma {:induction false} RevaluedIsFound(records: seq<Record>, key: string, value: string)
    requires ByKey(records, key).Some?
    ensures ByKey(Revalued(records, key, value), key) == Some(ByKey(records, key).value.(value := value))
  {
    assert Revalued(records, key, value)[1..] == Revalued(records[1..], key, value);
    if records[0].key != key {
      RevaluedIsFound(records[1..], key, value);
    }
  }

  lemma TakenKeyIsReplaced(t: Table, merchant: string, external: string, key: string, value: string)
    requires ByUser(t.records, merchant, external).None? && ByKey(t.records, key).Some?
    ensures var t' := AfterPut(t, merchant, external, key, value).0;
            && ByUser(t'.records, merchant, external).None?
            && ByKey(t'.records, key) == Some(ByKey(t.records, key).value.(value := value))
  {
    RevaluedKeepsUsers(t.records, key, value, merchant, external);
    RevaluedIsFound(t.records, key, value);
  }

  /** The first deposit request of a user answers the made address, and binds it if and only if the table does not
      hold that address for someone else; if it does, it is that other user's stored wallet which is replaced. */
  lemma FirstDepositBindsIff(t: Table, merchant: string, external: string, key: string, value: string)
    requires Valid(t) && ByUser(t.records, merchant, external).None?
    ensures var (t', answer) := Apply(t, Op.Deposit(merchant, external, true, Some((key, value)), true));
            var other := ByKey(t.records, key);
            && answer == Address(key)
            && (other.None? <==> ByUser(t'.records, merchant, external).Some?)
            && (other.None? ==> Bound(t', merchant, external, t.nextId, key))
            && (other.Some? ==> ByKey(t'.records, key) == Some(other.value.(value := value)))
  {
    if ByKey(t.records, key).None? {
      NewKeyIsBound(t, merchant, external, key, value);
    } else {
      TakenKeyIsReplaced(t, merchant, external, key, value);
    }
  }

  /** What a first request adds: one live record of the user, with the made address and the stored wallet. */
  lemma FirstDepositAdds(t: Table, merchant: string, external: string, key: string, value: string)
    requires forall r :: r in t.records ==> (r.merchant != merchant || r.external != external) && r.key != key
    ensures var record := Record(t.nextId, merchant, external, key, value, false);
            && Apply(t, Op.Deposit(merchant, external, true, Some((key, value)), true))
               == (Table(t.records + [record], t.nextId + 1), Address(key))
            && Apply(t, Op.CreateWallet(merchant, external, Some((key, value)), true))
               == (Table(t.records + [record], t.nextId + 1), Address(key))
  {
  }

  /** All deposit requests of a bound user answer the bound address, whatever happens before, between and after. */
  lemma DepositsAgree(t: Table, ops: seq<Op>, i: nat, merchant: string, external: string, id: nat, key: string)
    requires Valid(t) && Bound(t, merchant, external, id, key)
    requires i < |ops| && ops[i].Deposit? && ops[i].merchant == merchant && ops[i].external == external
    ensures AnswerAt(t, ops, i) == if ops[i].readable then Address(key) else Failed
  {
    BindingIsPermanent(t, ops[..i], merchant, external, id, key);
  }

  /** What creating a wallet for a user who has one comes to: a failure that uses up an id, or, if the made address is
      in the table already, that address, with its owner's stored wallet replaced. */
  function Recreated(t: Table, made: string, value: string): (Table, Answer) {
    if ByKey(t.records, made).None? then (t.(nextId := t.nextId + 1), Failed)
    else (Table(Revalued(t.records, made, value), t.nextId + 1), Address(made))
  }

  lemma CreateForBoundUser(t: Table, op: Op, id: nat, key: string)
    requires op.CreateWallet? && op.made.Some? && op.stored && Bound(t, op.merchant, op.external, id, key)
    ensures Apply(t, op) == Recreated(t, op.made.value.0, op.made.value.1)
  {
  }

  /** Whatever happened before, a bound user's wallet is never replaced by a new one. */
  lemma CreateWalletOfBoundUser(t: Table, ops: seq<Op>, i: nat, merchant: string, external: string, id: nat,
                                key: string)
    requires Valid(t) && Bound(t, merchant, external, id, key)
    requires i < |ops| && ops[i].CreateWallet? && ops[i].merchant == merchant && ops[i].external == external
    requires ops[i].made.Some? && ops[i].stored
    ensures Apply(Run(t, ops[..i]), ops[i]) == Recreated(Run(t, ops[..i]), ops[i].made.value.0, ops[i].made.value.1)
  {
    BindingIsPermanent(t, ops[..i], merchant, external, id, key);
    CreateForBoundUser(Run(t, ops[..i]), ops[i], id, key);
  }
}
