/** `processDepositProcessed` (modules/service/processing-deposit.go): settling processed deposits to the merchant. */
module Settlement {
  import opened Transactions
  import opened Ledger

  /** The merchant's commission as a function of the amount, and the processor's minimum value. The service charges
      `Scheduler.Commission.Charge`; what is proved here holds for every rule. */
  datatype Terms = Terms(charge: real -> real, minimum: real) {
    function Commission(t: Tx): real {
      charge(t.amount)
    }

    function Net(t: Tx): real {
      t.amount - Commission(t)
    }
  }

  /** What the outside world answers at each position of the batch: the broadcast of the transfer to the
      merchant, and whether the merchant's callback could be looked up. */
  datatype Answers = Answers(broadcast: nat -> Option<string>, callback: nat -> bool)

  function SettleWith(hash: string): Tx -> seq<Edit> {
    (t: Tx) => [Settle(hash)]
  }

  function Position(batch: seq<Tx>, key: Key): (j: int)
    ensures -1 <= j < |batch|
    ensures j >= 0 ==> KeyOf(batch[j]) == key
    ensures j < 0 ==> forall k :: 0 <= k < |batch| ==> KeyOf(batch[k]) != key
  {
    if batch == [] then -1
    else if KeyOf(batch[|batch| - 1]) == key then |batch| - 1
    else Position(batch[..|batch| - 1], key)
  }

  datatype Settlement = Settlement(batch: seq<Tx>, terms: Terms, answers: Answers) {

    /** The running total after `n` deposits: it is never reset, not even after a transfer. */
    function Running(n: nat): real
      requires n <= |batch|
    {
      if n == 0 then 0.0 else Running(n - 1) + terms.Net(batch[n - 1])
    }

    predicate Attempts(i: nat)
      requires i < |batch|
    {
      Running(i + 1) > 0.0
    }

    /** The transfer at position `i` moves funds. */
    predicate Pays(i: nat)
      requires i < |batch|
    {
      Attempts(i) && Running(i + 1) >= terms.minimum && answers.broadcast(i).Some?
    }

    /** The inner loop at position `i` runs. */
    predicate Settles(i: nat)
      requires i < |batch|
    {
      Pays(i) && answers.callback(i)
    }

    predicate Halts(i: nat)
      requires i < |batch|
    {
      Attempts(i) && !Settles(i)
    }

    function HashAt(i: nat): string
      requires i < |batch|
    {
      match answers.broadcast(i)
      case Some(h) => h
      case None => ""
    }

    /** One past the last index the outer loop visits, when it continues at `i`. */
    function VisitedFrom(i: nat): (v: nat)
      requires i <= |batch|
      ensures i <= v <= |batch|
      ensures forall k :: i <= k < v - 1 ==> !Halts(k)
      ensures v < |batch| ==> v > i && Halts(v - 1)
      decreases |batch| - i
    {
      if i == |batch| then i else if Halts(i) then i + 1 else VisitedFrom(i + 1)
    }

    /** The last index below `n` whose inner loop runs, or -1. */
    function LastSettling(n: nat): (m: int)
      requires n <= |batch|
      ensures -1 <= m < n
      ensures m >= 0 ==> Settles(m)
      ensures forall k :: m < k < n ==> !Settles(k)
    {
      if n == 0 then -1 else if Settles(n - 1) then n - 1 else LastSettling(n - 1)
    }

    /** A row after `visited` outer iterations when `last` is the last one whose inner loop ran. */
    function RowAfter(t: Tx, visited: nat, last: int): Tx
      requires visited <= |batch| && -1 <= last < |batch|
    {
      var j := Position(batch, KeyOf(t));
      if j < 0 then t
      else
        var kept := if j < visited then Edited(t, Process(batch[j].hash2, terms.Commission(batch[j]))) else t;
        if last < 0 then kept
        else
          var settled := Edited(kept, Settle(HashAt(last)));
          if last < j < visited then settled.(status := Processed) else settled
    }

    function After(rows: seq<Tx>, visited: nat, last: int): (rows': seq<Tx>)
      requires visited <= |batch| && -1 <= last < |batch|
      ensures |rows'| == |rows|
      ensures forall i :: 0 <= i < |rows| ==> rows'[i] == RowAfter(rows[i], visited, last)
    {
      seq(|rows|, i requires 0 <= i < |rows| => RowAfter(rows[i], visited, last))
    }

    /** The table after the whole pass, in closed form. */
    function Outcome(rows: seq<Tx>): (rows': seq<Tx>)
      ensures |rows'| == |rows|
    {
      After(rows, VisitedFrom(0), LastSettling(VisitedFrom(0)))
    }

    /** The balances after the transfers at positions below `n`. */
    function Disburse(b: Balances, to: Account, n: nat): Balances
      requires n <= |batch|
    {
      if n == 0 then b
      else if Pays(n - 1) then
        Move(Disburse(b, to, n - 1), ProcessingReceiving, to,
             Coin(batch[n - 1].asset, batch[n - 1].issuer), Trunc(Running(n)))
      else Disburse(b, to, n - 1)
    }

    lemma PositionIsUnique(j: nat)
      requires UniqueGuids(batch) && j < |batch|
      ensures Position(batch, KeyOf(batch[j])) == j
    {
      assert batch[Position(batch, KeyOf(batch[j]))].guid == batch[j].guid;
    }

    lemma ReputAt(t: Tx, i: nat, last: int)
      requires UniqueGuids(batch) && i < |batch| && -1 <= last < i
      ensures RowAfter(t, i + 1, last)
           == (if KeyOf(t) == KeyOf(batch[i])
               then Edited(RowAfter(t, i, last), Process(batch[i].hash2, terms.Commission(batch[i])))
               else RowAfter(t, i, last))
      ensures KeyOf(RowAfter(t, i, last)) == KeyOf(t)
    {
      PositionIsUnique(i);
    }

    /** Re-putting `processed` for the visited deposit extends the closed form by one visit. */
    lemma Reput(rows: seq<Tx>, i: nat, last: int)
      requires UniqueGuids(batch) && i < |batch| && -1 <= last < i
      ensures Put(After(rows, i, last), KeyOf(batch[i]), Process(batch[i].hash2, terms.Commission(batch[i])))
           == After(rows, i + 1, last)
    {
      forall r | 0 <= r < |rows|
        ensures Put(After(rows, i, last), KeyOf(batch[i]),
                    Process(batch[i].hash2, terms.Commission(batch[i])))[r] == After(rows, i + 1, last)[r]
      {
        ReputAt(rows[r], i, last);
      }
    }

    lemma InnerLoopRow(rows: seq<Tx>, i: nat, last: int, hash: string, r: nat)
      requires UniqueGuids(batch) && i < |batch| && -1 <= last < i && r < |rows|
      requires answers.broadcast(i) == Some(hash)
      ensures Puts(After(rows, i + 1, last), batch, SettleWith(hash))[r] == RowAfter(rows[r], i + 1, i)
    {
      var before := After(rows, i + 1, last);
      var j := Position(batch, KeyOf(rows[r]));
      if j < 0 {
        PutsMisses(before, batch, SettleWith(hash), r);
      } else {
        forall k | 0 <= k < |batch| && k != j ensures KeyOf(batch[k]) != KeyOf(before[r]) {
          PositionIsUnique(k);
        }
        PutsHits(before, batch, SettleWith(hash), r, j);
        assert EditedAll(before[r], [Settle(hash)]) == Edited(before[r], Settle(hash)) by {
          assert [Settle(hash)][..0] == [];
        }
      }
    }

    /** The inner loop rewrites the whole batch with the transfer's hash, whatever was settled or re-put before. */
    lemma InnerLoop(rows: seq<Tx>, i: nat, last: int, hash: string)
      requires UniqueGuids(batch) && i < |batch| && -1 <= last < i && Settles(i)
      requires answers.broadcast(i) == Some(hash)
      ensures Puts(After(rows, i + 1, last), batch, SettleWith(hash)) == After(rows, i + 1, i)
      ensures forall r :: 0 <= r < |rows| && KeyOf(rows[r]) in (set t | t in batch :: KeyOf(t)) ==>
                After(rows, i + 1, i)[r].status == Settled && After(rows, i + 1, i)[r].hash3 == hash
    {
      var before, after := After(rows, i + 1, last), After(rows, i + 1, i);
      forall r | 0 <= r < |rows| ensures Puts(before, batch, SettleWith(hash))[r] == after[r] {
        InnerLoopRow(rows, i, last, hash, r);
      }
    }
  }

  /** A row that becomes settled carries the hash of a transfer that was executed. */
  lemma SettledCarriesTheHash(s: Settlement, rows: seq<Tx>, i: nat)
    requires i < |rows| && s.Outcome(rows)[i] != rows[i] && s.Outcome(rows)[i].status == Settled
    ensures exists m: nat :: m < |s.batch| && s.answers.broadcast(m) == Some(s.Outcome(rows)[i].hash3)
  {
    var m := s.LastSettling(s.VisitedFrom(0));
    assert m >= 0 && s.answers.broadcast(m) == Some(s.Outcome(rows)[i].hash3);
  }

  lemma SettledRowsCarryHashes(s: Settlement, rows: seq<Tx>)
    ensures forall i :: 0 <= i < |rows| && s.Outcome(rows)[i] != rows[i] && s.Outcome(rows)[i].status == Settled ==>
              exists m: nat :: s.answers.broadcast(m) == Some(s.Outcome(rows)[i].hash3)
  {
    forall i | 0 <= i < |rows| && s.Outcome(rows)[i] != rows[i] && s.Outcome(rows)[i].status == Settled
      ensures exists m: nat :: s.answers.broadcast(m) == Some(s.Outcome(rows)[i].hash3)
    {
      SettledCarriesTheHash(s, rows, i);
    }
  }

  /** The part of the processing service that settles deposits. */
  class SettlementService {
    const transactions: TransactionTable
    const chain: Chain

    constructor (transactions: TransactionTable, chain: Chain)
      ensures this.transactions == transactions && this.chain == chain
    {
      this.transactions := transactions;
      this.chain := chain;
    }

    /** `TransferFromReceiving`: amounts below the minimum are refused before anything is broadcast. */
    method TransferFromReceiving(amount: real, c: Coin, minimum: real, to: Account, answer: Option<string>)
      returns (hash: Option<string>)
      modifies chain
      ensures hash == if amount < minimum then None else answer
      ensures chain.balance == if hash.Some? then Move(old(chain.balance), ProcessingReceiving, to, c, Trunc(amount))
                               else old(chain.balance)
    {
      if amount < minimum {
        hash := None;
      } else {
        hash := chain.Send(ProcessingReceiving, to, c, amount, answer);
      }
    }

    method SettleBatch(s: Settlement, hash: string)
      modifies transactions
      requires transactions.Valid()
      ensures transactions.Valid()
      ensures transactions.rows == Puts(old(transactions.rows), s.batch, SettleWith(hash))
    {
      var batch := s.batch;
      assert batch[..0] == [];
      for j := 0 to |batch|
        invariant transactions.Valid()
        invariant transactions.rows == Puts(old(transactions.rows), batch[..j], SettleWith(hash))
      {
        PutsStep(old(transactions.rows), batch, SettleWith(hash), j);
        PutAllOne(transactions.rows, KeyOf(batch[j]), Settle(hash));
        transactions.PutSettledTransaction(KeyOf(batch[j]), hash, true);
      }
      assert batch[..|batch|] == batch;
    }

    /** One iteration of the outer loop; `halted` is one of the two early returns. */
    method VisitDeposit(s: Settlement, i: nat, amount: real, to: Account, ghost rows0: seq<Tx>,
                        ghost balance0: Balances)
      returns (amount': real, halted: bool)
      requires transactions.Valid() && UniqueGuids(s.batch)
      requires i < |s.batch| && amount == s.Running(i)
      requires transactions.rows == s.After(rows0, i, s.LastSettling(i))
      requires chain.balance == s.Disburse(balance0, to, i)
      modifies transactions, chain
      ensures transactions.Valid()
      ensures amount' == s.Running(i + 1)
      ensures halted <==> s.Halts(i)
      ensures transactions.rows == s.After(rows0, i + 1, s.LastSettling(i + 1))
      ensures chain.balance == s.Disburse(balance0, to, i + 1)
    {
      var tr := s.batch[i];
      var commission := s.terms.Commission(tr);
      amount' := amount + (tr.amount - commission);
      transactions.PutProcessedTransaction(KeyOf(tr), tr.hash2, commission, true);
      s.Reput(rows0, i, s.LastSettling(i));
      halted := false;
      if amount' > 0.0 {
        var hash := TransferFromReceiving(amount', Coin(tr.asset, tr.issuer), s.terms.minimum, to,
                                          s.answers.broadcast(i));
        if hash.None? || !s.answers.callback(i) {
          return amount', true;
        }
        SettleBatch(s, hash.value);
        s.InnerLoop(rows0, i, s.LastSettling(i), hash.value);
      }
    }

    method ProcessDepositProcessed(merchant: string, blockchain: string, to: Account, terms: Terms, answers: Answers)
      requires transactions.Valid()
      modifies transactions, chain
      ensures transactions.Valid()
      ensures var s := Settlement(
                Fetch(old(transactions.rows), Query(merchant, blockchain, Deposit, Processed), BATCH_LIMIT),
                terms, answers);
              && transactions.rows == s.Outcome(old(transactions.rows))
              && chain.balance == s.Disburse(old(chain.balance), to, s.VisitedFrom(0))
      ensures |transactions.rows| == |old(transactions.rows)|
      ensures forall i :: 0 <= i < |transactions.rows| && transactions.rows[i] != old(transactions.rows)[i]
                          && transactions.rows[i].status == Settled ==>
                exists m: nat :: answers.broadcast(m) == Some(transactions.rows[i].hash3)
    {
      var q := Query(merchant, blockchain, Deposit, Processed);
      ghost var rows0, balance0 := transactions.rows, chain.balance;
      var fetched := transactions.GetMerchantTrxForProcessingInBlockChain(q, BATCH_LIMIT);
      var batch := if fetched.NotFound? then [] else fetched.batch;
      var s := Settlement(batch, terms, answers);
      FetchHasUniqueGuids(rows0, q, BATCH_LIMIT);
      var amount := 0.0;
      var i := 0;
      assert s.After(rows0, 0, -1) == rows0;
      while i < |batch|
        invariant 0 <= i <= |batch|
        invariant transactions.Valid()
        invariant s.VisitedFrom(0) == s.VisitedFrom(i)
        invariant amount == s.Running(i)
        invariant transactions.rows == s.After(rows0, i, s.LastSettling(i))
        invariant chain.balance == s.Disburse(balance0, to, i)
      {
        var halted;
        amount, halted := VisitDeposit(s, i, amount, to, rows0, balance0);
        if halted {
          SettledRowsCarryHashes(s, rows0);
          return;
        }
        i := i + 1;
      }
      SettledRowsCarryHashes(s, rows0);
    }
  }
}
