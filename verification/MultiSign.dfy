/** The multi-signature service of a merchant (cmd/multisign-service/service/multisign-service.go). */
module MultiSign {
  import opened Ledger

  datatype PubKey = PubKey(base64: string)

  datatype Address = Address(bech32: string)

  datatype Signature = Signature(bytes: string)

  /** A private key: its public key, and its signing function, which may fail. */
  datatype Key = Key(pub: PubKey, sign: string -> Option<Signature>)

  type Signatures = map<PubKey, Signature>

  function Most(m: int, n: int): int {
    if m >= n then m else n
  }

  ghost predicate Distinct<T>(list: seq<T>) {
    forall j, k :: 0 <= j < k < |list| ==> list[j] != list[k]
  }

  class MultiSignService {
    const keys: map<Address, Key>
    const verify: Option<string -> bool>
    /** How an address is derived from a public key. */
    const addressOf: PubKey -> Address

    constructor (keys: map<Address, Key>, verify: Option<string -> bool>, addressOf: PubKey -> Address)
      requires forall a :: a in keys ==> addressOf(keys[a].pub) == a
      ensures this.keys == keys && this.verify == verify && this.addressOf == addressOf
      ensures Valid()
    {
      this.keys := keys;
      this.verify := verify;
      this.addressOf := addressOf;
    }

    ghost predicate Valid() {
      forall a :: a in keys ==> addressOf(keys[a].pub) == a
    }

    predicate Verified(trxID: string) {
      verify.Some? ==> verify.value(trxID)
    }

    predicate CanSign(address: Address, data: string) {
      address in keys && keys[address].sign(data).Some?
    }

    /** The entries of the address list that can be signed, in order. */
    function Signable(addresses: seq<Address>, data: string): (s: seq<Address>)
      ensures forall k :: 0 <= k < |s| ==> CanSign(s[k], data) && s[k] in addresses
    {
      if addresses == [] then []
      else
        var last := addresses[|addresses| - 1];
        Signable(addresses[..|addresses| - 1], data) + (if CanSign(last, data) then [last] else [])
    }

    /** The signatures of a list of signable addresses, by public key. */
    function SignAll(addresses: seq<Address>, data: string): Signatures
      requires forall k :: 0 <= k < |addresses| ==> CanSign(addresses[k], data)
    {
      if addresses == [] then map[]
      else
        var last := addresses[|addresses| - 1];
        assert CanSign(last, data);
        var key := keys[last];
        SignAll(addresses[..|addresses| - 1], data)[key.pub := key.sign(data).value]
    }

    /** The prefix of the signable entries that is used: the loop tests for enough signatures only after it
        has made one, so even a threshold below one uses one entry. */
    function Used(addresses: seq<Address>, data: string, threshold: int): (s: seq<Address>)
      ensures forall k :: 0 <= k < |s| ==> CanSign(s[k], data)
    {
      var all := Signable(addresses, data);
      if |all| <= Most(threshold, 1) then all else all[..Most(threshold, 1)]
    }

    /** The public keys offered for new multi-signature wallets, each with weight one. */
    method GetMultiSignAddresses() returns (res: map<PubKey, real>)
      requires Valid()
      ensures forall adr :: adr in keys ==> keys[adr].pub in res
      ensures forall pub :: pub in res ==> addressOf(pub) in keys && keys[addressOf(pub)].pub == pub && res[pub] == 1.0
      ensures |res| == |keys|
    {
      res := map[];
      var rest := keys.Keys;
      while rest != {}
        invariant rest <= keys.Keys
        invariant forall adr :: adr in keys && adr !in rest ==> keys[adr].pub in res
        invariant forall pub :: pub in res ==> addressOf(pub) in keys && addressOf(pub) !in rest
        invariant forall pub :: pub in res ==> keys[addressOf(pub)].pub == pub && res[pub] == 1.0
        invariant |res| + |rest| == |keys|
        decreases |rest|
      {
        var adr :| adr in rest;
        var pub := keys[adr].pub;
        assert addressOf(pub) == adr;
        res := res[pub := 1.0];
        rest := rest - {adr};
      }
    }

    method FindPrivateKeyByAddress(address: Address) returns (r: Option<Key>)
      ensures r == if address in keys then Some(keys[address]) else None
    {
      if address in keys {
        return Some(keys[address]);
      }
      r := None;
    }

    /** One entry of the address list: its public key and signature, if it has a key here that signs. */
    method TrySign(addr: Address, trxData: string) returns (r: Option<(PubKey, Signature)>)
      ensures r.Some? <==> CanSign(addr, trxData)
      ensures r.Some? ==> r.value == (keys[addr].pub, keys[addr].sign(trxData).value)
    {
      var privateKey := FindPrivateKeyByAddress(addr);
      if privateKey.None? {
        return None;
      }
      var signature := privateKey.value.sign(trxData);
      if signature.None? {
        return None;
      }
      r := Some((privateKey.value.pub, signature.value));
    }

    /** The collection loop. */
    method Collect(addresses: seq<Address>, trxData: string, threshold: int) returns (res: Signatures, numSign: nat)
      ensures res == SignAll(Used(addresses, trxData, threshold), trxData)
      ensures numSign == |Used(addresses, trxData, threshold)|
    {
      res := map[];
      numSign := 0;
      ghost var signed: seq<Address> := [];
      var i := 0;
      assert addresses[..0] == [];
      while i < |addresses|
        invariant 0 <= i <= |addresses|
        invariant signed == Signable(addresses[..i], trxData)
        invariant numSign == |signed| && (numSign == 0 || numSign < threshold)
        invariant res == SignAll(signed, trxData)
        decreases |addresses| - i
      {
        SignableStep(addresses, i, trxData);
        var entry := TrySign(addresses[i], trxData);
        if entry.Some? {
          SignAllAppend(signed, addresses[i], trxData);
          res := res[entry.value.0 := entry.value.1];
          signed := signed + [addresses[i]];
          numSign := numSign + 1;
          if numSign >= threshold {
            i := i + 1;
            break;
          }
        }
        i := i + 1;
      }
      StoppedWithUsed(addresses, i, trxData, threshold);
    }

    method MultiSignTransaction(trxID: string, addresses: seq<Address>, trxData: string, threshold: int)
      returns (r: Option<Signatures>)
      ensures r.Some? <==> (verify.Some? ==> verify.value(trxID)) && |Signable(addresses, trxData)| >= threshold
      ensures r.Some? ==> r.value == SignAll(Used(addresses, trxData, threshold), trxData)
      ensures Valid() && r.Some? ==> forall pub :: pub in r.value ==>
                && addressOf(pub) in addresses && addressOf(pub) in keys
                && keys[addressOf(pub)].sign(trxData) == Some(r.value[pub])
    {
      if verify.Some? && !verify.value(trxID) {
        return None;
      }
      var res, numSign := Collect(addresses, trxData, threshold);
      if numSign < threshold {
        return None;
      }
      r := Some(res);
      if Valid() {
        UsedIsGenuine(addresses, trxData, threshold);
      }
    }

    lemma UsedIsGenuine(addresses: seq<Address>, data: string, threshold: int)
      requires Valid()
      ensures var r := SignAll(Used(addresses, data, threshold), data);
              forall pub :: pub in r ==> && addressOf(pub) in addresses && addressOf(pub) in keys
                                         && keys[addressOf(pub)].sign(data) == Some(r[pub])
    {
      var used := Used(addresses, data, threshold);
      SignAllIsGenuine(used, data);
      SignAllKeys(used, data);
      forall pub | pub in SignAll(used, data) ensures addressOf(pub) in addresses {
        var k :| 0 <= k < |used| && keys[used[k]].pub == pub;
        assert CanSign(used[k], data) && used[k] in Signable(addresses, data);
      }
    }

    /** Where the loop stops, it has signed the used prefix. */
    lemma StoppedWithUsed(addresses: seq<Address>, i: nat, data: string, threshold: int)
      requires i <= |addresses|
      requires var signed := |Signable(addresses[..i], data)|;
               (i == |addresses| && (signed == 0 || signed < threshold)) || signed == Most(threshold, 1)
      ensures Signable(addresses[..i], data) == Used(addresses, data, threshold)
    {
      SignableExtends(addresses, i, data);
      if i == |addresses| {
        assert addresses[..i] == addresses;
      }
    }

    lemma SignableStep(addresses: seq<Address>, i: nat, data: string)
      requires i < |addresses|
      ensures var before := Signable(addresses[..i], data);
              Signable(addresses[..i + 1], data)
              == if CanSign(addresses[i], data) then before + [addresses[i]] else before
    {
      assert addresses[..i + 1][..i] == addresses[..i];
    }

    lemma SignAllAppend(signed: seq<Address>, address: Address, data: string)
      requires forall k :: 0 <= k < |signed| ==> CanSign(signed[k], data)
      requires CanSign(address, data)
      ensures SignAll(signed + [address], data)
           == SignAll(signed, data)[keys[address].pub := keys[address].sign(data).value]
    {
      assert (signed + [address])[..|signed|] == signed;
    }

    lemma {:induction false} SignableExtends(addresses: seq<Address>, i: nat, data: string)
      requires i <= |addresses|
      ensures |Signable(addresses[..i], data)| <= |Signable(addresses, data)|
      ensures Signable(addresses[..i], data) == Signable(addresses, data)[..|Signable(addresses[..i], data)|]
    {
      if i == |addresses| {
        assert addresses[..i] == addresses;
      } else {
        var n := |addresses| - 1;
        SignableExtends(addresses[..n], i, data);
        assert addresses[..n][..i] == addresses[..i];
      }
    }

    /** A list of signable addresses yields signatures of exactly their keys. */
    lemma {:induction false} SignAllKeys(signed: seq<Address>, data: string)
      requires forall k :: 0 <= k < |signed| ==> CanSign(signed[k], data)
      ensures SignAll(signed, data).Keys == set k | 0 <= k < |signed| :: keys[signed[k]].pub
    {
      if signed != [] {
        var n := |signed| - 1;
        SignAllKeys(signed[..n], data);
        assert forall k :: 0 <= k < n ==> signed[..n][k] == signed[k];
        var before, pub := SignAll(signed[..n], data), keys[signed[n]].pub;
        assert SignAll(signed, data).Keys == before.Keys + {pub};
        assert (set k | 0 <= k < |signed| :: keys[signed[k]].pub)
            == (set k | 0 <= k < n :: keys[signed[k]].pub) + {pub};
      }
    }

    /** … and each of them is made by the key that the service holds for its address. */
    lemma {:induction false} SignAllIsGenuine(signed: seq<Address>, data: string)
      requires Valid() && forall k :: 0 <= k < |signed| ==> CanSign(signed[k], data)
      ensures forall pub :: pub in SignAll(signed, data) ==>
                addressOf(pub) in keys && keys[addressOf(pub)].sign(data) == Some(SignAll(signed, data)[pub])
    {
      if signed != [] {
        SignAllIsGenuine(signed[..|signed| - 1], data);
        assert CanSign(signed[|signed| - 1], data);
      }
    }

    /** A further address has a further key. */
    lemma PubIsFresh(signed: seq<Address>, address: Address, data: string)
      requires Valid() && forall k :: 0 <= k < |signed| ==> CanSign(signed[k], data)
      requires address in keys && address !in signed
      ensures keys[address].pub !in SignAll(signed, data).Keys
    {
      SignAllKeys(signed, data);
      assert addressOf(keys[address].pub) == address;
      forall k | 0 <= k < |signed| ensures keys[signed[k]].pub != keys[address].pub {
        assert addressOf(keys[signed[k]].pub) == signed[k];
      }
    }

    /** There is one signature for each distinct address of the list. */
    lemma {:induction false} SignAllSize(signed: seq<Address>, data: string)
      requires Valid() && forall k :: 0 <= k < |signed| ==> CanSign(signed[k], data)
      ensures |SignAll(signed, data).Keys| <= |signed|
      ensures Distinct(signed) ==> |SignAll(signed, data).Keys| == |signed|
    {
      if signed != [] {
        var n := |signed| - 1;
        SignAllSize(signed[..n], data);
        var before, pub := SignAll(signed[..n], data).Keys, keys[signed[n]].pub;
        assert SignAll(signed, data).Keys == before + {pub};
        if Distinct(signed) {
          PubIsFresh(signed[..n], signed[n], data);
        }
      }
    }

    lemma {:induction false} SignableKeepsDistinct(addresses: seq<Address>, data: string)
      requires Distinct(addresses)
      ensures Distinct(Signable(addresses, data))
    {
      if addresses != [] {
        var n := |addresses| - 1;
        SignableKeepsDistinct(addresses[..n], data);
        var before := Signable(addresses[..n], data);
        forall k | 0 <= k < |before| ensures before[k] != addresses[n] {
          assert before[k] in addresses[..n];
        }
      }
    }

    /** The collection loop for a threshold of at least one: it uses exactly the first `threshold` signable entries,
        and returns exactly `threshold` signatures when the addresses are distinct, at most that many otherwise. */
    lemma CollectsThreshold(addresses: seq<Address>, data: string, threshold: nat)
      requires Valid() && threshold >= 1 && |Signable(addresses, data)| >= threshold
      ensures Used(addresses, data, threshold) == Signable(addresses, data)[..threshold]
      ensures |SignAll(Used(addresses, data, threshold), data).Keys| <= threshold
      ensures Distinct(addresses) ==> |SignAll(Used(addresses, data, threshold), data).Keys| == threshold
    {
      var used := Used(addresses, data, threshold);
      assert used == Signable(addresses, data)[..threshold];
      SignAllSize(used, data);
      if Distinct(addresses) {
        SignableKeepsDistinct(addresses, data);
      }
    }
  }
}
