/** Multi-signature wallets: creation and activation (processor-coreum/createwallet.go) and the multi-signature
    branch of every later broadcast (processor-coreum/broadcasttx.go), against the service of module MultiSign.

    Key derivation, transaction encoding and gas are inputs: whether the new account could be funded, and whether
    the chain accepted the activation. */
module MultiSigWallets {
  import opened Ledger
  import opened MultiSign

  /** The public key of a multi-signature account: how many of which keys must sign. */
  datatype GroupKey = GroupKey(threshold: int, pubs: seq<PubKey>)

  datatype Created =
    | Single(pub: PubKey)
    | Multi(account: GroupKey)
    | Failed
    | Panicked

  /** Different keys have different addresses. */
  ghost predicate Injective(f: PubKey -> Address) {
    exists g :: Inverts(g, f)
  }

  ghost predicate Inverts(g: Address -> PubKey, f: PubKey -> Address) {
    forall x :: g(f(x)) == x
  }

  predicate AllMembers(signatures: Signatures, pubs: seq<PubKey>) {
    forall pub :: pub in signatures.Keys ==> pub in pubs
  }

  function AddressesOf(addressOf: PubKey -> Address, pubs: seq<PubKey>): seq<Address> {
    seq(|pubs|, i requires 0 <= i < |pubs| => addressOf(pubs[i]))
  }

  /** What the service answers to a request for `threshold` signatures, as `MultiSignTransaction` computes it. */
  function Collected(service: MultiSignService, trxID: string, addresses: seq<Address>, data: string, threshold: int)
    : Option<Signatures>
  {
    if service.Verified(trxID) && |service.Signable(addresses, data)| >= threshold
    then Some(service.SignAll(service.Used(addresses, data, threshold), data))
    else None
  }

  /** The processing key's own signature together with the collected ones. */
  function Assembled(own: Key, pubs: seq<PubKey>, data: string, collected: Option<Signatures>): Option<Signatures> {
    if own.sign(data).Some? && own.pub in pubs && collected.Some? && AllMembers(collected.value, pubs)
    then Some(map[own.pub := own.sign(data).value] + collected.value)
    else None
  }

  /** The account made for external keys and threshold `t`. */
  function AccountFor(own: PubKey, externals: seq<PubKey>, t: real): GroupKey {
    GroupKey(Trunc(t + 1.0), [own] + externals)
  }

  /** Signatures under assembly: adding one is a set insertion that fails for a key that is no member. */
  class MultiSignature {
    const members: seq<PubKey>
    var signed: Signatures

    constructor (members: seq<PubKey>)
      ensures this.members == members && signed == map[]
    {
      this.members := members;
      this.signed := map[];
    }

    method AddSignature(pub: PubKey, signature: Signature) returns (ok: bool)
      modifies this
      ensures ok <==> pub in members
      ensures signed == if ok then old(signed)[pub := signature] else old(signed)
    {
      ok := pub in members;
      if ok {
        signed := signed[pub := signature];
      }
    }

    /** Adds a map of signatures, in whatever order the map is iterated, up to the first that fails. */
    method AddAll(signatures: Signatures) returns (ok: bool)
      modifies this
      ensures ok <==> AllMembers(signatures, members)
      ensures ok ==> signed == old(signed) + signatures
    {
      var rest := signatures.Keys;
      while rest != {}
        invariant rest <= signatures.Keys
        invariant forall pub :: pub in signatures.Keys - rest ==> pub in members
        invariant signed == old(signed) + (map pub | pub in signatures.Keys - rest :: signatures[pub])
        decreases |rest|
      {
        var pub :| pub in rest;
        ok := AddSignature(pub, signatures[pub]);
        if !ok {
          return;
        }
        rest := rest - {pub};
      }
      ok := true;
      assert (map pub | pub in signatures.Keys - rest :: signatures[pub]) == signatures;
    }
  }

  /** Signs with the processing key and adds what the service collected. */
  method Assemble(own: Key, pubs: seq<PubKey>, data: string, collected: Option<Signatures>)
    returns (r: Option<Signatures>)
    ensures r == Assembled(own, pubs, data, collected)
    ensures r.Some? <==> && own.sign(data).Some? && own.pub in pubs && collected.Some?
                         && forall pub :: pub in collected.value ==> pub in pubs
    ensures r.Some? ==> r.value.Keys == {own.pub} + collected.value.Keys
    ensures r.Some? ==> forall pub :: pub in r.value ==>
              Some(r.value[pub]) == if pub in collected.value then Some(collected.value[pub]) else own.sign(data)
  {
    var ms := new MultiSignature(pubs);
    var sign := own.sign(data);
    if sign.None? {
      return None;
    }
    var added := ms.AddSignature(own.pub, sign.value);
    if !added || collected.None? {
      return None;
    }
    assert ms.signed == map[own.pub := sign.value];
    added := ms.AddAll(collected.value);
    r := if added then Some(ms.signed) else None;
  }

  /** What a broadcast from the account is signed with. */
  function Broadcast(service: MultiSignService, own: Key, account: GroupKey, addressOf: PubKey -> Address,
                     trxID: string, data: string): Option<Signatures>
  {
    Assembled(own, account.pubs, data,
              Collected(service, trxID, AddressesOf(addressOf, account.pubs), data, account.threshold - 1))
  }

  /** What the activation of a new account is signed with. */
  function Activation(service: MultiSignService, own: Key, externals: seq<PubKey>, t: int, addressOf: PubKey -> Address,
                      trxID: string, data: string): Option<Signatures>
  {
    Assembled(own, [own.pub] + externals, data, Collected(service, trxID, AddressesOf(addressOf, externals), data, t))
  }

  /** `broadcastTrx` for a multi-signature account, up to the signed transaction. */
  method SignForBroadcast(account: GroupKey, own: Key, service: Option<MultiSignService>, addressOf: PubKey -> Address,
                          trxID: string, data: string)
    returns (r: Option<Signatures>)
    ensures r == if service.None? then None else Broadcast(service.value, own, account, addressOf, trxID, data)
  {
    if service.None? {
      return None;
    }
    var signAddresses: seq<Address> := [];
    for i := 0 to |account.pubs|
      invariant signAddresses == AddressesOf(addressOf, account.pubs)[..i]
    {
      signAddresses := signAddresses + [addressOf(account.pubs[i])];
    }
    assert signAddresses == AddressesOf(addressOf, account.pubs);
    var signatures := service.value.MultiSignTransaction(trxID, signAddresses, data, account.threshold - 1);
    r := Assemble(own, account.pubs, data, signatures);
  }

  /** What creating a wallet comes to. `service` is None when a callback is missing, `offer` the keys and threshold
      it offers, and `funded` and `accepted` what the chain answers to the top-up and the activation. */
  function Outcome(own: Key, service: Option<MultiSignService>, offer: Option<(seq<PubKey>, real)>,
                   addressOf: PubKey -> Address, trxID: string, data: string, funded: bool, accepted: bool): Created
  {
    if service.None? then Single(own.pub)
    else if offer.None? then Failed
    else
      var (externals, t) := offer.value;
      if externals == [] || t <= 0.0 then Single(own.pub)
      else if Trunc(t + 1.0) > |externals| + 1 then Panicked
      else if funded && t == t.Floor as real && accepted
              && Activation(service.value, own, externals, t.Floor, addressOf, trxID, data).Some?
      then Multi(AccountFor(own.pub, externals, t))
      else Failed
  }

  /** The members of a new account, the processing key first, and the addresses that the service is asked for. */
  method MembersOf(own: PubKey, externals: seq<PubKey>, addressOf: PubKey -> Address)
    returns (signKeys: seq<PubKey>, signAddresses: seq<Address>)
    ensures signKeys == [own] + externals && signAddresses == AddressesOf(addressOf, externals)
  {
    signKeys, signAddresses := [own], [];
    for i := 0 to |externals|
      invariant signKeys == [own] + externals[..i]
      invariant signAddresses == AddressesOf(addressOf, externals)[..i]
    {
      signKeys := signKeys + [externals[i]];
      signAddresses := signAddresses + [addressOf(externals[i])];
    }
  }

  method CreateCoreumWallet(own: Key, service: Option<MultiSignService>, offer: Option<(seq<PubKey>, real)>,
                            addressOf: PubKey -> Address, trxID: string, data: string, funded: bool, accepted: bool)
    returns (r: Created)
    ensures r == Outcome(own, service, offer, addressOf, trxID, data, funded, accepted)
  {
    if service.None? {
      return Single(own.pub);
    }
    if offer.None? {
      return Failed;
    }
    var (externals, threshold) := offer.value;
    if externals == [] || threshold <= 0.0 {
      return Single(own.pub);
    }
    var signKeys, signAddresses := MembersOf(own.pub, externals, addressOf);
    if Trunc(threshold + 1.0) > |signKeys| {
      return Panicked;
    }
    if !funded || threshold != threshold.Floor as real {
      return Failed;
    }
    var signatures := service.value.MultiSignTransaction(trxID, signAddresses, data, threshold.Floor);
    var assembled := Assemble(own, signKeys, data, signatures);
    assert assembled == Activation(service.value, own, externals, threshold.Floor, addressOf, trxID, data);
    if assembled.None? || !accepted {
      return Failed;
    }
    r := Multi(GroupKey(Trunc(threshold + 1.0), signKeys));
  }

  /** What is stored for a new wallet: the address it is found and credited under, and the wallet address inside it,
      which is that of the key the service holds itself. */
  datatype Stored = Stored(key: Address, walletAddress: Address)

  function StoredFor(r: Created, own: PubKey, addressOf: PubKey -> Address, groupAddress: GroupKey -> Address)
    : Option<Stored>
  {
    match r
    case Single(pub) => Some(Stored(addressOf(pub), addressOf(own)))
    case Multi(account) => Some(Stored(groupAddress(account), addressOf(own)))
    case _ => None
  }
}
