/** A merchant's own wallets never enter the deposit queue. */
module InternalWallets {
  import opened Transactions
  import opened Strings
  import opened Callbacks
  import opened Passes
  import DepositStream
  import KeyStore
  import Merchants

  ghost predicate NoInternalDeposits(rows: seq<Tx>) {
    forall i :: 0 <= i < |rows| && rows[i].action == Deposit ==> !Contains(rows[i].external, rows[i].merchant)
  }

  /** The observations that the callbacks of one tick make. */
  ghost predicate Observed(os: seq<Observation>, record: KeyStore.Record, balances: seq<DepositStream.Balance>,
                           native: string)
  {
    var reports := DepositStream.ReportsOf(record, balances, native);
    forall k :: 0 <= k < |os| ==>
      exists p :: p in reports && os[k].user.merchant == p.merchant && os[k].user.external == p.external
  }

  /** What happens to the table of transactions: a tick of the deposit stream, any scheduler pass, and any withdrawal
      that is requested. */
  ghost predicate Next(rows: seq<Tx>, rows': seq<Tx>, native: string) {
    || (exists os, record, balances ::
          !DepositStream.Internal(record) && Observed(os, record, balances, native) && rows' == ObserveAll(rows, os))
    || SameRows(rows, rows')
    || (|rows'| == |rows| + 1 && rows'[..|rows|] == rows && rows'[|rows|].action == Withdraw)
  }

  lemma {:induction false} ObservingKeeps(rows: seq<Tx>, os: seq<Observation>)
    requires NoInternalDeposits(rows)
    requires forall k :: 0 <= k < |os| ==> !Contains(os[k].user.external, os[k].user.merchant)
    ensures NoInternalDeposits(ObserveAll(rows, os))
  {
    if os != [] {
      ObservingKeeps(rows, os[..|os| - 1]);
    }
  }

  lemma NextKeeps(rows: seq<Tx>, rows': seq<Tx>, native: string)
    requires NoInternalDeposits(rows) && Next(rows, rows', native)
    ensures NoInternalDeposits(rows')
  {
    if SameRows(rows, rows') {
      assert forall i :: 0 <= i < |rows| ==> SameIdentity(rows[i], rows'[i]);
    } else if os, record, balances :|
        !DepositStream.Internal(record) && Observed(os, record, balances, native) && rows' == ObserveAll(rows, os)
    {
      ObservingKeeps(rows, os);
    } else {
      assert forall i :: 0 <= i < |rows| ==> rows'[..|rows|][i] == rows'[i];
    }
  }

  /** In every run, whatever the merchants' records have become, no deposit is ever created for a receiving, a sending
      or an issuer wallet of its merchant. */
  lemma {:induction false} InternalWalletsAreNeverQueued(run: seq<seq<Tx>>, native: string, ops: seq<Merchants.Op>,
                                                         n: nat, i: nat, code: string)
    requires n < |run| && run[0] == [] && forall j :: 0 <= j < |run| - 1 ==> Next(run[j], run[j + 1], native)
    requires i < |run[n]| && run[n][i].action == Deposit
    ensures !Merchants.MerchantsOwn(Merchants.Run(map[], ops), run[n][i].merchant, run[n][i].external, code)
  {
    RunKeeps(run, native, n);
    var t := run[n][i];
    if Merchants.MerchantsOwn(Merchants.Run(map[], ops), t.merchant, t.external, code) {
      Merchants.MerchantsOwnAreInternal(ops, t.merchant, t.external, code);
    }
  }

  lemma {:induction false} RunKeeps(run: seq<seq<Tx>>, native: string, n: nat)
    requires n < |run| && run[0] == [] && forall j :: 0 <= j < |run| - 1 ==> Next(run[j], run[j + 1], native)
    ensures NoInternalDeposits(run[n])
  {
    if n > 0 {
      RunKeeps(run, native, n - 1);
      assert Next(run[n - 1], run[n], native);
      NextKeeps(run[n - 1], run[n], native);
    }
  }
}
