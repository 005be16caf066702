/** End to end: which signatures a broadcast from a multi-signature wallet carries. */
module MultiSigTheorems {
  import opened Ledger
  import opened MultiSign
  import opened MultiSigWallets

  /** The keys of a list that the service holds and that sign. */
  ghost function Held(service: MultiSignService, pubs: seq<PubKey>, data: string): set<PubKey> {
    set pub | pub in pubs && service.CanSign(service.addressOf(pub), data)
  }

  /** A wallet's parties: a service, the processing key and external keys, all keys different. */
  ghost predicate Parties(service: MultiSignService, own: Key, externals: seq<PubKey>, data: string) {
    && service.Valid()
    && Injective(service.addressOf)
    && Distinct([own.pub] + externals)
    && own.sign(data).Some?
  }

  lemma {:induction false} SignableConcat(service: MultiSignService, a: seq<Address>, b: seq<Address>, data: string)
    ensures service.Signable(a + b, data) == service.Signable(a, data) + service.Signable(b, data)
  {
    if b == [] {
      assert a + b == a;
    } else {
      var n := |b| - 1;
      assert (a + b)[..|a| + n] == a + b[..n];
      SignableConcat(service, a, b[..n], data);
    }
  }

  /** The processing key comes first in the list of members, so the service reaches its address first. */
  lemma OwnComesFirst(service: MultiSignService, own: PubKey, externals: seq<PubKey>, data: string)
    requires service.CanSign(service.addressOf(own), data)
    ensures var s := service.Signable(AddressesOf(service.addressOf, [own] + externals), data);
            |s| >= 1 && s[0] == service.addressOf(own)
  {
    var f := service.addressOf;
    var first, rest := [f(own)], AddressesOf(f, externals);
    assert AddressesOf(f, [own] + externals) == first + rest;
    SignableConcat(service, first, rest, data);
    assert first[..0] == [];
    assert service.Signable(first, data) == first;
  }

  lemma DistinctTail(first: PubKey, rest: seq<PubKey>)
    requires Distinct([first] + rest)
    ensures Distinct(rest) && first !in rest
  {
    var all := [first] + rest;
    forall k | 0 <= k < |rest| ensures rest[k] != first {
      assert all[k + 1] == rest[k] && all[0] == first;
    }
    forall j, k | 0 <= j < k < |rest| ensures rest[j] != rest[k] {
      assert all[j + 1] == rest[j] && all[k + 1] == rest[k];
    }
  }

  lemma HeldLast(service: MultiSignService, pubs: seq<PubKey>, data: string)
    requires pubs != [] && Distinct(pubs)
    ensures var n := |pubs| - 1;
            |Held(service, pubs, data)|
            == |Held(service, pubs[..n], data)| + if service.CanSign(service.addressOf(pubs[n]), data) then 1 else 0
  {
    var n := |pubs| - 1;
    assert pubs == pubs[..n] + [pubs[n]] && pubs[n] !in pubs[..n];
    var last := if service.CanSign(service.addressOf(pubs[n]), data) then {pubs[n]} else {};
    assert Held(service, pubs, data) == Held(service, pubs[..n], data) + last;
  }

  /** Each held key is one signable entry. */
  lemma {:induction false} SignableCountsHeld(service: MultiSignService, pubs: seq<PubKey>, data: string)
    requires Injective(service.addressOf) && Distinct(pubs)
    ensures |service.Signable(AddressesOf(service.addressOf, pubs), data)| == |Held(service, pubs, data)|
  {
    if pubs != [] {
      var n := |pubs| - 1;
      var f := service.addressOf;
      SignableCountsHeld(service, pubs[..n], data);
      assert AddressesOf(f, pubs)[..n] == AddressesOf(f, pubs[..n]);
      HeldLast(service, pubs, data);
    }
  }

  lemma AddressesKeepDistinct(f: PubKey -> Address, pubs: seq<PubKey>)
    requires Injective(f) && Distinct(pubs)
    ensures Distinct(AddressesOf(f, pubs))
  {
    forall j, k | 0 <= j < k < |pubs| ensures AddressesOf(f, pubs)[j] != AddressesOf(f, pubs)[k] {
      assert pubs[j] != pubs[k];
    }
  }

  /** What the service returns for a list of keys is exactly a threshold's worth of them, each held and signing. */
  lemma CollectedFromHeld(service: MultiSignService, trxID: string, pubs: seq<PubKey>, data: string, t: nat)
    requires service.Valid() && Injective(service.addressOf) && Distinct(pubs) && t >= 1
    ensures var r := Collected(service, trxID, AddressesOf(service.addressOf, pubs), data, t);
            && (r.Some? <==> service.Verified(trxID) && |Held(service, pubs, data)| >= t)
            && (r.Some? ==> |r.value.Keys| == t && r.value.Keys <= Held(service, pubs, data))
  {
    var f := service.addressOf;
    var addresses := AddressesOf(f, pubs);
    SignableCountsHeld(service, pubs, data);
    AddressesKeepDistinct(f, pubs);
    if |service.Signable(addresses, data)| >= t {
      service.CollectsThreshold(addresses, data, t);
      var used := service.Used(addresses, data, t);
      service.SignAllKeys(used, data);
      forall pub | pub in service.SignAll(used, data).Keys ensures pub in Held(service, pubs, data) {
        var k :| 0 <= k < |used| && service.keys[used[k]].pub == pub;
        assert used[k] in addresses;
        var i :| 0 <= i < |pubs| && addresses[i] == used[k];
        assert service.CanSign(used[k], data) && f(pub) == used[k] == f(pubs[i]);
      }
    }
  }

  /** Collected signatures of members assemble with the processing key's own. */
  lemma AssembledKeys(own: Key, pubs: seq<PubKey>, data: string, collected: Option<Signatures>)
    requires own.sign(data).Some? && own.pub in pubs && collected.Some? && AllMembers(collected.value, pubs)
    ensures var r := Assembled(own, pubs, data, collected);
            && r.Some? && own.pub in r.value && AllMembers(r.value, pubs)
            && |r.value.Keys| == |collected.value.Keys| + (if own.pub in collected.value.Keys then 0 else 1)
  {
    var r := Assembled(own, pubs, data, collected);
    assert r.value.Keys == {own.pub} + collected.value.Keys;
    if own.pub in collected.value.Keys {
      assert r.value.Keys == collected.value.Keys;
    }
  }

  lemma HeldWithOwn(service: MultiSignService, own: PubKey, externals: seq<PubKey>, data: string)
    requires own !in externals
    ensures |Held(service, [own] + externals, data)|
         == |Held(service, externals, data)| + (if service.CanSign(service.addressOf(own), data) then 1 else 0)
  {
    assert Held(service, [own] + externals, data)
        == Held(service, externals, data) + (if service.CanSign(service.addressOf(own), data) then {own} else {});
  }

  /** Every signature of `r` is one of the data: by the processing key itself if it is that key's and `own` says so, and
      otherwise by the key that the service holds for the address. */
  ghost predicate SignedBy(service: MultiSignService, own: Key, ownSigns: bool, data: string, r: Signatures) {
    forall pub :: pub in r ==>
      if pub == own.pub && ownSigns then own.sign(data) == Some(r[pub])
      else service.addressOf(pub) in service.keys
           && service.keys[service.addressOf(pub)].sign(data) == Some(r[pub])
  }

  lemma CollectedIsGenuine(service: MultiSignService, trxID: string, addresses: seq<Address>, data: string, t: int)
    requires service.Valid()
    ensures var r := Collected(service, trxID, addresses, data, t);
            r.Some? ==> forall pub :: pub in r.value ==>
              && service.addressOf(pub) in service.keys
              && service.keys[service.addressOf(pub)].sign(data) == Some(r.value[pub])
  {
    service.UsedIsGenuine(addresses, data, t);
  }

  /** What is assembled from genuine signatures is signed by the processing key exactly if it was not collected. */
  lemma AssembledIsGenuine(service: MultiSignService, own: Key, pubs: seq<PubKey>, trxID: string,
                           addresses: seq<Address>, data: string, t: int)
    requires service.Valid()
    ensures var collected := Collected(service, trxID, addresses, data, t);
            var r := Assembled(own, pubs, data, collected);
            r.Some? ==> collected.Some? && SignedBy(service, own, own.pub !in collected.value, data, r.value)
  {
    CollectedIsGenuine(service, trxID, addresses, data, t);
  }

  /** If the service signs for the processing key, that is the first signature it makes. */
  lemma OwnIsUsed(service: MultiSignService, own: PubKey, externals: seq<PubKey>, data: string, t: nat)
    requires service.Valid() && Injective(service.addressOf) && t >= 1
    requires service.CanSign(service.addressOf(own), data)
    ensures own in service.SignAll(service.Used(AddressesOf(service.addressOf, [own] + externals), data, t), data).Keys
  {
    OwnComesFirst(service, own, externals, data);
    var used := service.Used(AddressesOf(service.addressOf, [own] + externals), data, t);
    assert used[0] == service.addressOf(own);
    service.SignAllKeys(used, data);
    assert service.addressOf(service.keys[used[0]].pub) == used[0];
    assert service.keys[used[0]].pub == own;
  }

  /** Asking the service for `t` signatures of a wallet's members. */
  lemma MembersCollected(service: MultiSignService, own: Key, externals: seq<PubKey>, t: nat, trxID: string,
                         data: string)
    requires Parties(service, own, externals, data) && t >= 1
    ensures var pubs := [own.pub] + externals;
            var ownHeld := service.CanSign(service.addressOf(own.pub), data);
            var collected := Collected(service, trxID, AddressesOf(service.addressOf, pubs), data, t);
            && (collected.Some? <==> service.Verified(trxID)
                                     && |Held(service, externals, data)| + (if ownHeld then 1 else 0) >= t)
            && (collected.Some? ==> AllMembers(collected.value, pubs) && |collected.value.Keys| == t
                                    && (own.pub in collected.value.Keys <==> ownHeld))
  {
    var pubs := [own.pub] + externals;
    DistinctTail(own.pub, externals);
    HeldWithOwn(service, own.pub, externals, data);
    CollectedFromHeld(service, trxID, pubs, data, t);
    if service.CanSign(service.addressOf(own.pub), data) {
      OwnIsUsed(service, own.pub, externals, data, t);
    }
  }

  /** Asking for signatures of all members, and adding the processing key's own. */
  lemma MembersSign(service: MultiSignService, own: Key, externals: seq<PubKey>, t: nat, trxID: string, data: string)
    requires Parties(service, own, externals, data) && t >= 1
    ensures var pubs, ownHeld := [own.pub] + externals, service.CanSign(service.addressOf(own.pub), data);
            var r := Assembled(own, pubs, data,
                               Collected(service, trxID, AddressesOf(service.addressOf, pubs), data, t));
            && (r.Some? <==> service.Verified(trxID)
                             && |Held(service, externals, data)| + (if ownHeld then 1 else 0) >= t)
            && (r.Some? ==> own.pub in r.value && AllMembers(r.value, pubs)
                            && |r.value.Keys| == (if ownHeld then t else t + 1)
                            && SignedBy(service, own, !ownHeld, data, r.value))
  {
    var pubs := [own.pub] + externals;
    var addresses := AddressesOf(service.addressOf, pubs);
    MembersCollected(service, own, externals, t, trxID, data);
    AssembledIsGenuine(service, own, pubs, trxID, addresses, data, t);
    var collected := Collected(service, trxID, addresses, data, t);
    if collected.Some? {
      AssembledKeys(own, pubs, data, collected);
    }
  }

  /** Asking for signatures of the external keys, and adding the processing key's own. */
  lemma ExternalsSign(service: MultiSignService, own: Key, externals: seq<PubKey>, t: nat, trxID: string, data: string)
    requires Parties(service, own, externals, data) && t >= 1
    ensures var r := Activation(service, own, externals, t, service.addressOf, trxID, data);
            && (r.Some? <==> service.Verified(trxID) && |Held(service, externals, data)| >= t)
            && (r.Some? ==> AllMembers(r.value, [own.pub] + externals) && |r.value.Keys| == t + 1
                            && SignedBy(service, own, true, data, r.value))
  {
    var pubs, addresses := [own.pub] + externals, AddressesOf(service.addressOf, externals);
    DistinctTail(own.pub, externals);
    CollectedFromHeld(service, trxID, externals, data, t);
    AssembledIsGenuine(service, own, pubs, trxID, addresses, data, t);
    var collected := Collected(service, trxID, addresses, data, t);
    if collected.Some? {
      assert own.pub !in collected.value.Keys;
      AssembledKeys(own, pubs, data, collected);
    }
  }

  lemma AccountForWhole(own: PubKey, externals: seq<PubKey>, t: nat)
    ensures AccountFor(own, externals, t as real) == GroupKey(t + 1, [own] + externals)
  {
    assert t as real + 1.0 == (t + 1) as real;
  }

  lemma BroadcastAsks(service: MultiSignService, own: Key, account: GroupKey, t: nat, trxID: string, data: string)
    requires account.threshold == t + 1
    ensures Broadcast(service, own, account, service.addressOf, trxID, data)
         == Assembled(own, account.pubs, data,
                      Collected(service, trxID, AddressesOf(service.addressOf, account.pubs), data, t))
  {
  }

  /** Every broadcast from a wallet made for external threshold `t`: it is signed if and only if the service approves
      and holds enough of the members' keys; the signers are then members; and they number exactly the wallet's own
      threshold if and only if the service does not itself sign for the processing key. Every signature is one of the
      data: the processing key's own under its public key, unless the service signs for that, and the service's under
      every other. */
  lemma BroadcastCarriesThreshold(service: MultiSignService, own: Key, externals: seq<PubKey>, t: nat,
                                  trxID: string, data: string)
    requires Parties(service, own, externals, data) && t >= 1
    ensures var account := AccountFor(own.pub, externals, t as real);
            var ownHeld := service.CanSign(service.addressOf(own.pub), data);
            var r := Broadcast(service, own, account, service.addressOf, trxID, data);
            && account.threshold == t + 1
            && (r.Some? <==> service.Verified(trxID)
                             && |Held(service, externals, data)| + (if ownHeld then 1 else 0) >= t)
            && (r.Some? ==> own.pub in r.value && AllMembers(r.value, account.pubs))
            && (r.Some? ==> |r.value.Keys| == if ownHeld then t else account.threshold)
            && (r.Some? ==> SignedBy(service, own, !ownHeld, data, r.value))
  {
    var account, pubs := AccountFor(own.pub, externals, t as real), [own.pub] + externals;
    AccountForWhole(own.pub, externals, t);
    MembersSign(service, own, externals, t, trxID, data);
    BroadcastAsks(service, own, account, t, trxID, data);
    assert account.pubs == pubs;
  }

  /** Without a service, without external keys or with a threshold of nothing, the wallet is that of the processing key
      alone; if the offer cannot be had, there is none. */
  lemma LonelyWallets(own: Key, service: Option<MultiSignService>, offer: Option<(seq<PubKey>, real)>,
                      addressOf: PubKey -> Address, trxID: string, data: string, funded: bool, accepted: bool)
    ensures var created := Outcome(own, service, offer, addressOf, trxID, data, funded, accepted);
            && (service.None? ==> created == Single(own.pub))
            && (service.Some? && offer.None? ==> created == Failed)
            && (offer.Some? && (offer.value.0 == [] || offer.value.1 <= 0.0) ==> created == Single(own.pub))
  {
  }

  /** A wallet is activated exactly when it is funded and accepted, the threshold is a whole number that its external
      keys can meet, and the service can sign for it; the activation, too, carries exactly the wallet's threshold, with
      the processing key's signature of the data under its public key and the service's under every other. */
  lemma ActivatedWalletsSign(service: MultiSignService, own: Key, externals: seq<PubKey>, t: real,
                             trxID: string, data: string, funded: bool, accepted: bool)
    requires Parties(service, own, externals, data) && externals != [] && t > 0.0
    ensures var f := service.addressOf;
            var created := Outcome(own, Some(service), Some((externals, t)), f, trxID, data, funded, accepted);
            && (created.Multi? <==> funded && accepted && t == t.Floor as real && service.Verified(trxID)
                                    && t.Floor <= |Held(service, externals, data)|)
            && (created.Panicked? <==> t.Floor > |externals|) && !created.Single?
            && (created.Multi? ==>
                  && created.account == AccountFor(own.pub, externals, t)
                  && var r := Activation(service, own, externals, t.Floor, f, trxID, data);
                     && r.Some? && |r.value.Keys| == created.account.threshold
                     && AllMembers(r.value, created.account.pubs) && SignedBy(service, own, true, data, r.value))
  {
    assert Trunc(t + 1.0) == t.Floor + 1;
    DistinctTail(own.pub, externals);
    HeldAtMost(service, externals, data);
    if t == t.Floor as real {
      AccountForWhole(own.pub, externals, t.Floor);
      ExternalsSign(service, own, externals, t.Floor, trxID, data);
    }
  }

  lemma {:induction false} SignableAtMost(service: MultiSignService, addresses: seq<Address>, data: string)
    ensures |service.Signable(addresses, data)| <= |addresses|
    ensures (forall adr :: adr in addresses ==> service.CanSign(adr, data)) ==>
              service.Signable(addresses, data) == addresses
  {
    if addresses != [] {
      var n := |addresses| - 1;
      SignableAtMost(service, addresses[..n], data);
      assert addresses == addresses[..n] + [addresses[n]];
    }
  }

  lemma HeldAtMost(service: MultiSignService, pubs: seq<PubKey>, data: string)
    requires Injective(service.addressOf) && Distinct(pubs)
    ensures |Held(service, pubs, data)| <= |pubs|
    ensures (forall pub :: pub in pubs ==> service.CanSign(service.addressOf(pub), data)) ==>
              |Held(service, pubs, data)| == |pubs|
  {
    SignableCountsHeld(service, pubs, data);
    SignableAtMost(service, AddressesOf(service.addressOf, pubs), data);
  }

  /** The bundled service offers all its keys and asks for all of them: while they all sign, every approved creation
      and every approved broadcast goes through, with every party's signature. */
  lemma BundledServiceSigns(service: MultiSignService, own: Key, externals: seq<PubKey>, trxID: string, data: string)
    requires Parties(service, own, externals, data) && externals != []
    requires service.addressOf(own.pub) !in service.keys
    requires forall pub :: pub in externals ==> service.CanSign(service.addressOf(pub), data)
    requires service.Verified(trxID)
    ensures var account := GroupKey(|externals| + 1, [own.pub] + externals);
            && Outcome(own, Some(service), Some((externals, |externals| as real)), service.addressOf, trxID, data,
                       true, true)
               == Multi(account)
            && var r := Broadcast(service, own, account, service.addressOf, trxID, data);
               && r.Some? && |r.value.Keys| == |account.pubs|
               && SignedBy(service, own, true, data, r.value)
  {
    var t := |externals|;
    DistinctTail(own.pub, externals);
    HeldAtMost(service, externals, data);
    ActivatedWalletsSign(service, own, externals, t as real, trxID, data, true, true);
    BroadcastCarriesThreshold(service, own, externals, t, trxID, data);
  }

  /** A wallet that is made carries its own address inside, where settlements are sent to, if and only if it has no
      external signers. */
  lemma AddressIsKeyIff(own: Key, service: Option<MultiSignService>, offer: Option<(seq<PubKey>, real)>,
                        addressOf: PubKey -> Address, groupAddress: GroupKey -> Address, trxID: string, data: string,
                        funded: bool, accepted: bool)
    requires forall account, pub :: groupAddress(account) != addressOf(pub)
    requires StoredFor(Outcome(own, service, offer, addressOf, trxID, data, funded, accepted), own.pub, addressOf,
                       groupAddress).Some?
    ensures var created := Outcome(own, service, offer, addressOf, trxID, data, funded, accepted);
            var stored := StoredFor(created, own.pub, addressOf, groupAddress).value;
            stored.walletAddress == stored.key
            <==> service.None? || offer.None? || offer.value.0 == [] || offer.value.1 <= 0.0
  {
    var created := Outcome(own, service, offer, addressOf, trxID, data, funded, accepted);
    if created.Multi? {
      assert groupAddress(created.account) != addressOf(own.pub);
    }
  }
}
