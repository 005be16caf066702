/** The merchant records (modules/service/merchant.go, modules/handler/merchants.go) and the wallets that belong to a
    merchant itself: receiving, sending, and one issuer for each token. */
module Merchants {
  import opened Ledger
  import opened Strings
  import opened Scheduler

  datatype MerchantData = MerchantData(publicKey: string, name: string, callback: string, wallets: map<string, Wallets>)

  type Records = map<string, MerchantData>

  datatype Op =
    | CreateMerchant(id: string, publicKey: string, name: string, callback: string)
    | UpdateMerchant(id: string, publicKey: string, name: string, callback: string)
    | UpdateCommission(id: string, blockchain: string, receiving: Commission, sending: Commission)
    | CreateWallet(id: string, blockchain: string, created: bool)

  const DEFAULT_COMMISSION := Commission(1.0, 1.0)

  function OwnWallets(id: string, receiving: Commission, sending: Commission): Wallets {
    Wallets(receiving, sending, id + "-R", id + "-S")
  }

  /** A request on the records; one for an unknown merchant changes nothing. */
  function Apply(m: Records, op: Op): Records {
    match op
    case CreateMerchant(id, publicKey, name, callback) => m[id := MerchantData(publicKey, name, callback, map[])]
    case UpdateMerchant(id, publicKey, name, callback) =>
      if id !in m then m else m[id := MerchantData(publicKey, name, callback, m[id].wallets)]
    case UpdateCommission(id, blockchain, receiving, sending) =>
      if id !in m then m
      else
        var before := m[id].wallets;
        var updated := if blockchain in before then before[blockchain].(receiving := receiving, sending := sending)
                       else OwnWallets(id, receiving, sending);
        m[id := m[id].(wallets := before[blockchain := updated])]
    case CreateWallet(id, blockchain, created) =>
      if id !in m || blockchain in m[id].wallets || !created then m
      else
        var added := OwnWallets(id, DEFAULT_COMMISSION, DEFAULT_COMMISSION);
        m[id := m[id].(wallets := m[id].wallets[blockchain := added])]
  }

  function Run(m: Records, ops: seq<Op>): Records {
    if ops == [] then m else Apply(Run(m, ops[..|ops| - 1]), ops[|ops| - 1])
  }

  class MerchantStore {
    var records: Records

    constructor ()
      ensures records == map[]
    {
      records := map[];
    }

    method GetMerchantData(id: string) returns (r: Option<MerchantData>)
      ensures r == if id in records then Some(records[id]) else None
    {
      r := if id in records then Some(records[id]) else None;
    }

    method CreateMerchant(id: string, publicKey: string, name: string, callback: string)
      modifies this
      ensures records == Apply(old(records), Op.CreateMerchant(id, publicKey, name, callback))
      ensures records == old(records)[id := MerchantData(publicKey, name, callback, map[])]
    {
      records := records[id := MerchantData(publicKey, name, callback, map[])];
    }

    method UpdateMerchantData(id: string, publicKey: string, name: string, callback: string) returns (ok: bool)
      modifies this
      ensures ok <==> id in old(records)
      ensures records == Apply(old(records), UpdateMerchant(id, publicKey, name, callback))
      ensures records == old(if id in records
                             then records[id := MerchantData(publicKey, name, callback, records[id].wallets)]
                             else records)
    {
      var dataOld := GetMerchantData(id);
      if dataOld.None? {
        return false;
      }
      var data := dataOld.value.(publicKey := publicKey, name := name, callback := callback);
      records := records[id := data];
      ok := true;
    }

    method UpdateMerchantCommission(id: string, blockchain: string, receiving: Commission, sending: Commission)
      returns (r: Option<Wallets>)
      modifies this
      ensures r.Some? <==> id in old(records)
      ensures records == Apply(old(records), UpdateCommission(id, blockchain, receiving, sending))
      ensures r.Some? ==> id in records && blockchain in records[id].wallets
                          && records[id].wallets[blockchain] == r.value
    {
      var dataOld := GetMerchantData(id);
      if dataOld.None? {
        return None;
      }
      var wallets := dataOld.value.wallets;
      var newData := Wallets(receiving, sending, id + "-R", id + "-S");
      if blockchain in wallets {
        newData := newData.(receivingID := wallets[blockchain].receivingID);
        newData := newData.(sendingID := wallets[blockchain].sendingID);
      }
      wallets := wallets[blockchain := newData];
      records := records[id := dataOld.value.(wallets := wallets)];
      r := Some(newData);
    }

    /** The handler; `created` says whether the processor made both wallets. */
    method CreateWallet(id: string, blockchain: string, created: bool) returns (ok: bool)
      modifies this
      ensures ok <==> id in old(records) && blockchain !in old(records)[id].wallets && created
      ensures records == Apply(old(records), Op.CreateWallet(id, blockchain, created))
    {
      var data := GetMerchantData(id);
      if data.None? || blockchain in data.value.wallets || !created {
        return false;
      }
      var wallets := Wallets(DEFAULT_COMMISSION, DEFAULT_COMMISSION, id + "-R", id + "-S");
      records := records[id := data.value.(wallets := data.value.wallets[blockchain := wallets])];
      ok := true;
    }
  }

  ghost predicate OwnIds(m: Records) {
    forall id, blockchain :: id in m && blockchain in m[id].wallets ==>
      m[id].wallets[blockchain].receivingID == id + "-R" && m[id].wallets[blockchain].sendingID == id + "-S"
  }

  /** Every reachable record has the wallet ids that its merchant's id determines. */
  lemma {:induction false} ReachableIdsAreOwn(ops: seq<Op>)
    ensures OwnIds(Run(map[], ops))
  {
    if ops != [] {
      ReachableIdsAreOwn(ops[..|ops| - 1]);
    }
  }

  /** The ids of the wallets a merchant has for itself; `code` is the code of a token it issues. */
  predicate MerchantsOwn(m: Records, merchant: string, external: string, code: string) {
    || external == merchant + "-" + code
    || (merchant in m && exists blockchain ::
          blockchain in m[merchant].wallets
          && external in [m[merchant].wallets[blockchain].receivingID, m[merchant].wallets[blockchain].sendingID])
  }

  /** They all contain the merchant's id, and receiving and sending wallets differ. */
  lemma MerchantsOwnAreInternal(ops: seq<Op>, merchant: string, external: string, code: string)
    requires MerchantsOwn(Run(map[], ops), merchant, external, code)
    ensures Contains(external, merchant)
  {
    ReachableIdsAreOwn(ops);
    assert merchant + "-" + code == merchant + ("-" + code);
    PrefixIsContained(merchant, "-" + code);
    PrefixIsContained(merchant, "-R");
    PrefixIsContained(merchant, "-S");
  }

  lemma ReceivingIsNotSending(ops: seq<Op>, id: string, blockchain: string)
    requires var m := Run(map[], ops); id in m && blockchain in m[id].wallets
    ensures var w := Run(map[], ops)[id].wallets[blockchain]; w.receivingID != w.sendingID
  {
    ReachableIdsAreOwn(ops);
    assert (id + "-R")[|id| + 1] == 'R' && (id + "-S")[|id| + 1] == 'S';
  }

  /** The latest commissions of a wallet count, and a wallet that is made has 1 and 1 per cent both ways; the other
      wallets, and the merchant's data, stay. */
  lemma CommissionsAreTheLatest(m: Records, id: string, blockchain: string, receiving: Commission, sending: Commission)
    requires id in m
    ensures var m' := Apply(m, UpdateCommission(id, blockchain, receiving, sending));
            && id in m' && blockchain in m'[id].wallets
            && m'[id].wallets[blockchain].receiving == receiving && m'[id].wallets[blockchain].sending == sending
            && m'[id].wallets - {blockchain} == m[id].wallets - {blockchain} && m' - {id} == m - {id}
            && m'[id].(wallets := m[id].wallets) == m[id]
    ensures var m' := Apply(m, Op.CreateWallet(id, blockchain, true));
            if blockchain in m[id].wallets then m' == m
            else
              && id in m' && m'[id].wallets.Keys == m[id].wallets.Keys + {blockchain}
              && m'[id].wallets[blockchain]
                 == Wallets(Commission(1.0, 1.0), Commission(1.0, 1.0), id + "-R", id + "-S")
              && m'[id].wallets - {blockchain} == m[id].wallets && m' - {id} == m - {id}
              && m'[id].(wallets := m[id].wallets) == m[id]
  {
  }

  /** Once a merchant has a wallet, no request but creating that very merchant anew changes its ids. */
  lemma WalletIdsStay(m: Records, op: Op, id: string, blockchain: string)
    requires id in m && blockchain in m[id].wallets
    requires !(op.CreateMerchant? && op.id == id)
    ensures var m' := Apply(m, op);
            && id in m' && blockchain in m'[id].wallets
            && m'[id].wallets[blockchain].receivingID == m[id].wallets[blockchain].receivingID
            && m'[id].wallets[blockchain].sendingID == m[id].wallets[blockchain].sendingID
  {
  }

  /** … and so no sequence of such requests does. */
  lemma {:induction false} WalletIdsArePermanent(m: Records, ops: seq<Op>, id: string, blockchain: string)
    requires id in m && blockchain in m[id].wallets
    requires forall k :: 0 <= k < |ops| ==> !(ops[k].CreateMerchant? && ops[k].id == id)
    ensures var m' := Run(m, ops);
            && id in m' && blockchain in m'[id].wallets
            && m'[id].wallets[blockchain].receivingID == m[id].wallets[blockchain].receivingID
            && m'[id].wallets[blockchain].sendingID == m[id].wallets[blockchain].sendingID
  {
    if ops != [] {
      var n := |ops| - 1;
      WalletIdsArePermanent(m, ops[..n], id, blockchain);
      WalletIdsStay(Run(m, ops[..n]), ops[n], id, blockchain);
    }
  }
}
