/** No deposit is credited twice: over every interleaving of incoming funds, callbacks, transfers to the receiving
    wallet, their confirmations and harmless API calls, a user is never credited more than the wallet received. */
module Crediting {
  import opened Transactions
  import opened Ledger
  import opened Sums
  import opened Strings
  import opened Deposits
  import opened Callbacks

  /** One coin of one user. */
  datatype Purse = Purse(user: User, coin: Coin) {
    function Account(): Account {
      Wallet(user.merchant, user.external)
    }
  }

  /** Everything on one blockchain.  `received` counts what ever arrived in a user's wallet, `landed` are the
      deposits whose funds have left it for the receiving wallet. */
  datatype World = World(rows: seq<Tx>, balance: Balances, received: Balances, landed: set<nat>)

  /** Wallets of the merchant itself; the deposit scan skips them. */
  predicate Internal(u: User) {
    Contains(u.external, u.merchant)
  }

  datatype Step =
    | Receive(p: Purse, units: nat)
    | Callback(p: Purse, guid: nat, extWallet: string, hash: string)
    | Transfer(t: Tx, answer: InitAnswer)
    | Confirm(t: Tx, status: ChainStatus)
    | Api(key: Key, e: Edit)
    | Later(rows: seq<Tx>, balance: Balances)

  predicate IsDeposit(t: Tx, u: User) {
    t.merchant == u.merchant && t.external == u.external && t.blockchain == u.blockchain && t.action == Deposit
  }

  predicate Of(t: Tx, p: Purse) {
    IsDeposit(t, p.user) && t.asset == p.coin.asset && t.issuer == p.coin.issuer
  }

  /** Credited: every deposit of the purse that was not rejected. */
  function CreditW(p: Purse): Tx -> real {
    (t: Tx) => if Of(t, p) && t.status != Rejected then t.amount else 0.0
  }

  /** Claimed: every deposit of the purse that was not rejected before its funds had left the wallet. */
  function ClaimW(p: Purse, landed: set<nat>): Tx -> real {
    (t: Tx) => if Of(t, p) && (t.status != Rejected || t.guid in landed) then t.amount else 0.0
  }

  function LandedW(p: Purse, landed: set<nat>): Tx -> real {
    (t: Tx) => if Of(t, p) && t.guid in landed then t.amount else 0.0
  }

  predicate AfterInit(t: Tx) {
    t.status == Processed || t.status == Settled || t.status == Done
  }

  /** The rest of the service: deposits past `init` move on, withdrawals come and go, and balances change on
      processing and internal wallets only. */
  ghost predicate LaterRows(rows: seq<Tx>, rows': seq<Tx>) {
    && |rows| <= |rows'| && UniqueGuids(rows')
    && (forall i :: 0 <= i < |rows| ==>
          && SameIdentity(rows[i], rows'[i])
          && (rows'[i] == rows[i] || rows[i].action == Withdraw || (AfterInit(rows[i]) && AfterInit(rows'[i]))))
    && (forall i :: |rows| <= i < |rows'| ==> rows'[i].action == Withdraw)
  }

  function Seen(w: World, p: Purse, guid: nat, extWallet: string, hash: string): Observation {
    Observation(guid, p.user, extWallet, hash, p.coin.asset, p.coin.issuer, Bal(w.balance, p.Account(), p.coin) as real)
  }

  /** An `UpdateWithdraw` or `DeleteWithdraw` that names no deposit, or rejects one, or updates one whose funds have
      landed. The calls themselves check nothing of this (see `ApiCallIsSafeIff`). */
  ghost predicate Harmless(w: World, bc: string, key: Key, e: Edit) {
    || e.Reject?
    || (e.Process? && forall t :: t in w.rows && KeyOf(t) == key && t.action == Deposit && t.blockchain == bc ==>
                        t.guid in w.landed)
  }

  /** The steps on blockchain `bc`.  A status query tells the truth about the broadcast, hashes are not empty,
      and rows are written. */
  ghost predicate Next(bc: string, w: World, step: Step, w': World) {
    match step
    case Receive(p, units) =>
      && p.user.blockchain == bc
      && w' == w.(balance := Deposited(w.balance, p, units), received := Deposited(w.received, p, units))
    case Callback(p, guid, extWallet, hash) =>
      && p.user.blockchain == bc && !Internal(p.user) && (forall t :: t in w.rows ==> t.guid != guid)
      && w' == w.(rows := Observe(w.rows, Seen(w, p, guid, extWallet, hash)))
    case Transfer(t, a) =>
      && t in w.rows && t.action == Deposit && t.status == Init && t.hash2 == "" && t.blockchain == bc
      && a.stored && (a.transfer.Some? ==> a.transfer.value != "")
      && w' == TransferRow(w, t, a)
    case Confirm(t, status) =>
      && t in w.rows && t.action == Deposit && t.status == Init && t.hash2 != "" && t.blockchain == bc
      && (status == Successful ==> t.guid in w.landed) && (status == Failed ==> t.guid !in w.landed)
      && w' == w.(rows := PutAll(w.rows, KeyOf(t), InitEdit(t, InitAnswer(None, false, status, true))))
    case Api(key, e) =>
      Harmless(w, bc, key, e) && w' == w.(rows := Put(w.rows, key, e))
    case Later(rows, balance) =>
      && LaterRows(w.rows, rows)
      && (forall p: Purse :: !Internal(p.user) ==>
            Bal(balance, p.Account(), p.coin) == Bal(w.balance, p.Account(), p.coin))
      && w' == w.(rows := rows, balance := balance)
  }

  function Deposited(b: Balances, p: Purse, units: nat): (b': Balances)
    ensures forall a, c :: Bal(b', a, c) == Bal(b, a, c) + (if a == p.Account() && c == p.coin then units else 0)
  {
    b[(p.Account(), p.coin) := Bal(b, p.Account(), p.coin) + units]
  }

  /** One iteration of `processDepositInitiated` for a deposit that has no blockchain transaction yet. */
  function TransferRow(w: World, t: Tx, a: InitAnswer): World {
    var w1 := w.(rows := PutAll(w.rows, KeyOf(t), InitEdit(t, a)));
    if Lands(t, a) then
      w1.(balance := Move(w.balance, Wallet(t.merchant, t.external), ProcessingReceiving, Coin(t.asset, t.issuer),
                          Trunc(t.amount)),
          landed := w.landed + {t.guid})
    else w1
  }

  predicate RowFits(w: World, bc: string, t: Tx) {
    t.action == Deposit && t.blockchain == bc ==>
      && t.amount > 0.0 && Whole(t.amount) && !Internal(User(t.merchant, t.external, bc))
      && (AfterInit(t) ==> t.guid in w.landed)
      && (t.status == Init && t.hash2 == "" ==> t.guid !in w.landed)
  }

  ghost predicate RowsFit(w: World, bc: string) {
    && UniqueGuids(w.rows)
    && (forall i :: 0 <= i < |w.rows| ==> RowFits(w, bc, w.rows[i]))
    && (forall g :: g in w.landed ==> exists i :: 0 <= i < |w.rows| && w.rows[i].guid == g)
  }

  function Credited(w: World, p: Purse): real {
    Sum(w.rows, CreditW(p))
  }

  function Claimed(w: World, p: Purse): real {
    Sum(w.rows, ClaimW(p, w.landed))
  }

  function Received(w: World, p: Purse): real {
    Bal(w.received, p.Account(), p.coin) as real
  }

  predicate OnChain(p: Purse, bc: string) {
    p.user.blockchain == bc && !Internal(p.user)
  }

  /** What is in the wallet and what left it for the receiving wallet is what it received. */
  ghost predicate FundsFit(w: World, p: Purse) {
    Bal(w.balance, p.Account(), p.coin) as real + Sum(w.rows, LandedW(p, w.landed)) == Received(w, p)
  }

  ghost predicate Safe(w: World, bc: string) {
    && RowsFit(w, bc)
    && forall p: Purse :: OnChain(p, bc) ==> FundsFit(w, p) && Claimed(w, p) <= Received(w, p)
  }

  /** The user's `init` deposits are of this coin, and their funds are still in the wallet. */
  ghost predicate InitsFit(w: World, p: Purse) {
    forall t :: t in w.rows && IsDeposit(t, p.user) && t.status == Init ==> Of(t, p) && t.guid !in w.landed
  }

  /** The heart of the matter: what is claimed is covered by `init` deposits and landed funds. */
  lemma ClaimIsCovered(w: World, bc: string, p: Purse)
    requires RowsFit(w, bc) && OnChain(p, bc)
    ensures Claimed(w, p) <= InitTotal(w.rows, p.user) + Sum(w.rows, LandedW(p, w.landed))
    ensures InitsFit(w, p) ==> Claimed(w, p) == InitTotal(w.rows, p.user) + Sum(w.rows, LandedW(p, w.landed))
  {
    forall k | 0 <= k < |w.rows|
      ensures ClaimW(p, w.landed)(w.rows[k]) <= InitW(p.user)(w.rows[k]) + LandedW(p, w.landed)(w.rows[k])
      ensures InitsFit(w, p) ==>
                ClaimW(p, w.landed)(w.rows[k]) == InitW(p.user)(w.rows[k]) + LandedW(p, w.landed)(w.rows[k])
    {
      assert RowFits(w, bc, w.rows[k]) && w.rows[k] in w.rows;
    }
    SumAtMost(w.rows, ClaimW(p, w.landed), InitW(p.user), LandedW(p, w.landed));
  }

  lemma CreditIsClaimed(w: World, bc: string, p: Purse)
    requires RowsFit(w, bc) && OnChain(p, bc)
    ensures Credited(w, p) <= Claimed(w, p)
  {
    forall k | 0 <= k < |w.rows| ensures CreditW(p)(w.rows[k]) <= ClaimW(p, w.landed)(w.rows[k]) {
      assert RowFits(w, bc, w.rows[k]);
    }
    SumMonotone(w.rows, w.rows, CreditW(p), ClaimW(p, w.landed));
  }

  ghost predicate NoLandedRejected(w: World, p: Purse) {
    forall t :: t in w.rows && Of(t, p) && t.status == Rejected ==> t.guid !in w.landed
  }

  lemma ClaimIsCredited(w: World, p: Purse)
    requires NoLandedRejected(w, p)
    ensures Credited(w, p) == Claimed(w, p)
  {
    forall k | 0 <= k < |w.rows| ensures CreditW(p)(w.rows[k]) == ClaimW(p, w.landed)(w.rows[k]) {
      assert w.rows[k] in w.rows;
    }
    SumSame(w.rows, w.rows, CreditW(p), ClaimW(p, w.landed));
  }

  lemma {:induction false} InitTotalIsWhole(rows: seq<Tx>, u: User)
    requires forall i :: 0 <= i < |rows| && IsDeposit(rows[i], u) ==> Whole(rows[i].amount)
    ensures Whole(InitTotal(rows, u))
  {
    if rows != [] {
      InitTotalIsWhole(rows[..|rows| - 1], u);
      WholeSum(InitTotal(rows[..|rows| - 1], u), InitW(u)(rows[|rows| - 1]));
    }
  }

  lemma UnitsAreWhole(x: real, n: int)
    requires x == n as real
    ensures Whole(x) && (x >= 0.0 ==> Trunc(x) == n)
  {
  }

  lemma WholeSum(x: real, y: real)
    requires Whole(x) && Whole(y)
    ensures Whole(x + y) && Whole(x - y)
  {
    var m, n := x.Floor, y.Floor;
    UnitsAreWhole(x + y, m + n);
    UnitsAreWhole(x - y, m - n);
  }

  lemma CallbackKeeps(w: World, bc: string, p: Purse, guid: nat, extWallet: string, hash: string)
    requires Safe(w, bc) && OnChain(p, bc) && forall t :: t in w.rows ==> t.guid != guid
    ensures Safe(w.(rows := Observe(w.rows, Seen(w, p, guid, extWallet, hash))), bc)
  {
    var o := Seen(w, p, guid, extWallet, hash);
    var w' := w.(rows := Observe(w.rows, o));
    var rest := o.amount - InitTotal(w.rows, p.user);
    if rest > 0.0 {
      var t := NewDeposit(o, rest);
      forall i | 0 <= i < |w.rows| && IsDeposit(w.rows[i], p.user) ensures Whole(w.rows[i].amount) {
        assert RowFits(w, bc, w.rows[i]);
      }
      InitTotalIsWhole(w.rows, p.user);
      WholeSum(o.amount, InitTotal(w.rows, p.user));
      assert guid !in w.landed;
      assert RowFits(w', bc, t);
      forall i | 0 <= i < |w'.rows| ensures RowFits(w', bc, w'.rows[i]) {
        assert i < |w.rows| ==> RowFits(w, bc, w.rows[i]);
      }
      forall g | g in w'.landed ensures exists i :: 0 <= i < |w'.rows| && w'.rows[i].guid == g {
        var i :| 0 <= i < |w.rows| && w.rows[i].guid == g;
        assert w'.rows[i].guid == g;
      }
      forall q: Purse | OnChain(q, bc) ensures FundsFit(w', q) && Claimed(w', q) <= Received(w', q) {
        SumAppend(w.rows, t, ClaimW(q, w.landed));
        SumAppend(w.rows, t, LandedW(q, w.landed));
        ClaimIsCovered(w, bc, q);
        assert FundsFit(w, q);
      }
    }
  }

  lemma ReceiveKeeps(w: World, bc: string, p: Purse, units: nat)
    requires Safe(w, bc)
    ensures Safe(w.(balance := Deposited(w.balance, p, units), received := Deposited(w.received, p, units)), bc)
  {
    var w' := w.(balance := Deposited(w.balance, p, units), received := Deposited(w.received, p, units));
    forall i | 0 <= i < |w'.rows| ensures RowFits(w', bc, w'.rows[i]) {
      assert RowFits(w, bc, w.rows[i]);
    }
    forall q: Purse | OnChain(q, bc) ensures FundsFit(w', q) && Claimed(w', q) <= Received(w', q) {
      assert FundsFit(w, q);
    }
  }

  /** A step at row `i` that only rewrites `init` columns of a deposit or confirms it. */
  ghost predicate RowStep(w: World, w': World, i: nat)
    requires i < |w.rows|
  {
    && |w'.rows| == |w.rows| && SameIdentity(w.rows[i], w'.rows[i])
    && (forall k :: 0 <= k < |w.rows| && k != i ==> w'.rows[k] == w.rows[k])
    && w.landed <= w'.landed <= w.landed + {w.rows[i].guid}
    && w'.received == w.received
  }

  lemma RowStepKeepsRows(w: World, bc: string, w': World, i: nat)
    requires RowsFit(w, bc) && i < |w.rows| && RowStep(w, w', i) && RowFits(w', bc, w'.rows[i])
    ensures RowsFit(w', bc)
  {
    var t := w.rows[i];
    var j := IndexOf(w.rows, t);
    assert j == i;
    forall k | 0 <= k < |w.rows| ensures w'.rows[k].guid == w.rows[k].guid && RowFits(w', bc, w'.rows[k]) {
      assert RowFits(w, bc, w.rows[k]);
    }
    forall g | g in w'.landed ensures exists k :: 0 <= k < |w'.rows| && w'.rows[k].guid == g {
      if g in w.landed {
        var k :| 0 <= k < |w.rows| && w.rows[k].guid == g;
        assert w'.rows[k].guid == g;
      } else {
        assert w'.rows[i].guid == g;
      }
    }
  }

  lemma RowStepKeepsFunds(w: World, bc: string, w': World, i: nat, q: Purse)
    requires RowsFit(w, bc) && i < |w.rows| && RowStep(w, w', i) && OnChain(q, bc)
    requires FundsFit(w, q) && Claimed(w, q) <= Received(w, q)
    requires w.rows[i].status != Rejected && w'.rows[i].status != Rejected
    requires Bal(w'.balance, q.Account(), q.coin) as real
          == Bal(w.balance, q.Account(), q.coin) as real
           + LandedW(q, w.landed)(w.rows[i]) - LandedW(q, w'.landed)(w'.rows[i])
    ensures FundsFit(w', q) && Claimed(w', q) <= Received(w', q)
  {
    var j := IndexOf(w.rows, w.rows[i]);
    assert j == i;
    SumDiffersAt(w.rows, w'.rows, LandedW(q, w.landed), LandedW(q, w'.landed), i);
    SumDiffersAt(w.rows, w'.rows, ClaimW(q, w.landed), ClaimW(q, w'.landed), i);
  }

  lemma TransferIsRowStep(w: World, t: Tx, a: InitAnswer, i: nat)
    requires UniqueGuids(w.rows) && i < |w.rows| && w.rows[i] == t
    requires t.status == Init && t.hash2 == "" && a.stored
    ensures RowStep(w, TransferRow(w, t, a), i)
    ensures TransferRow(w, t, a).rows[i] == if a.transfer.Some? then t.(hash2 := a.transfer.value) else t
  {
    var j := IndexOf(w.rows, t);
    assert j == i;
    if a.transfer.Some? {
      PutAllOne(w.rows, KeyOf(t), Pend(a.transfer.value));
    }
  }

  lemma TransferKeeps(w: World, bc: string, t: Tx, a: InitAnswer)
    requires Safe(w, bc) && t in w.rows && t.blockchain == bc
    requires t.action == Deposit && t.status == Init && t.hash2 == ""
    requires a.stored && (a.transfer.Some? ==> a.transfer.value != "")
    ensures Safe(TransferRow(w, t, a), bc)
  {
    var i := IndexOf(w.rows, t);
    var w' := TransferRow(w, t, a);
    TransferIsRowStep(w, t, a, i);
    assert RowFits(w, bc, w.rows[i]);
    RowStepKeepsRows(w, bc, w', i);
    UnitsAreWhole(t.amount, t.amount.Floor);
    forall q: Purse | OnChain(q, bc) ensures FundsFit(w', q) && Claimed(w', q) <= Received(w', q) {
      RowStepKeepsFunds(w, bc, w', i, q);
    }
  }

  lemma ConfirmIsRowStep(w: World, t: Tx, status: ChainStatus, i: nat)
    requires UniqueGuids(w.rows) && i < |w.rows| && w.rows[i] == t && t.hash2 != ""
    ensures var edits := InitEdit(t, InitAnswer(None, false, status, true));
            var w' := w.(rows := PutAll(w.rows, KeyOf(t), edits));
            && RowStep(w, w', i)
            && w'.rows[i] == if status == Successful then Edited(t, Process(t.hash2, 0.0))
                             else if status == Failed then Edited(t, Pend("")) else t
  {
    var edits := InitEdit(t, InitAnswer(None, false, status, true));
    var j := IndexOf(w.rows, t);
    assert j == i;
    if edits != [] {
      PutAllOne(w.rows, KeyOf(t), edits[0]);
    }
  }

  lemma ConfirmKeeps(w: World, bc: string, t: Tx, status: ChainStatus)
    requires Safe(w, bc) && t in w.rows && t.blockchain == bc
    requires t.action == Deposit && t.status == Init && t.hash2 != ""
    requires (status == Successful ==> t.guid in w.landed) && (status == Failed ==> t.guid !in w.landed)
    ensures Safe(w.(rows := PutAll(w.rows, KeyOf(t), InitEdit(t, InitAnswer(None, false, status, true)))), bc)
  {
    var w' := w.(rows := PutAll(w.rows, KeyOf(t), InitEdit(t, InitAnswer(None, false, status, true))));
    var i := IndexOf(w.rows, t);
    assert RowFits(w, bc, w.rows[i]);
    ConfirmIsRowStep(w, t, status, i);
    RowStepKeepsRows(w, bc, w', i);
    forall q: Purse | OnChain(q, bc) ensures FundsFit(w', q) && Claimed(w', q) <= Received(w', q) {
      RowStepKeepsFunds(w, bc, w', i, q);
    }
  }

  lemma {:induction false} SumOverWithdrawals(rows: seq<Tx>, n: nat, w: Tx -> real)
    requires n <= |rows| && forall i :: n <= i < |rows| ==> w(rows[i]) == 0.0
    ensures Sum(rows, w) == Sum(rows[..n], w)
  {
    if n == |rows| {
      assert rows[..n] == rows;
    } else {
      SumOverWithdrawals(rows[..|rows| - 1], n, w);
      assert rows[..|rows| - 1][..n] == rows[..n];
    }
  }

  lemma LaterKeeps(w: World, bc: string, rows: seq<Tx>, balance: Balances)
    requires Safe(w, bc) && LaterRows(w.rows, rows)
    requires forall p: Purse :: !Internal(p.user) ==>
               Bal(balance, p.Account(), p.coin) == Bal(w.balance, p.Account(), p.coin)
    ensures Safe(w.(rows := rows, balance := balance), bc)
  {
    var w', n := w.(rows := rows, balance := balance), |w.rows|;
    forall i | 0 <= i < |rows| ensures RowFits(w', bc, rows[i]) {
      if i < n {
        assert RowFits(w, bc, w.rows[i]) && SameIdentity(w.rows[i], rows[i]);
      }
    }
    forall g | g in w'.landed ensures exists i :: 0 <= i < |rows| && rows[i].guid == g {
      var i :| 0 <= i < |w.rows| && w.rows[i].guid == g;
      assert SameIdentity(w.rows[i], rows[i]);
    }
    forall q: Purse | OnChain(q, bc) ensures FundsFit(w', q) && Claimed(w', q) <= Received(w', q) {
      forall i | 0 <= i < n
        ensures ClaimW(q, w.landed)(w.rows[i]) == ClaimW(q, w.landed)(rows[..n][i])
        ensures LandedW(q, w.landed)(w.rows[i]) == LandedW(q, w.landed)(rows[..n][i])
      {
        assert SameIdentity(w.rows[i], rows[i]);
      }
      SumSame(w.rows, rows[..n], ClaimW(q, w.landed), ClaimW(q, w.landed));
      SumSame(w.rows, rows[..n], LandedW(q, w.landed), LandedW(q, w.landed));
      SumOverWithdrawals(rows, n, ClaimW(q, w.landed));
      SumOverWithdrawals(rows, n, LandedW(q, w.landed));
      assert FundsFit(w, q);
    }
  }

  lemma ApiCallKeepsRows(w: World, bc: string, key: Key, e: Edit)
    requires RowsFit(w, bc) && Harmless(w, bc, key, e)
    ensures RowsFit(w.(rows := Put(w.rows, key, e)), bc)
  {
    var rows := Put(w.rows, key, e);
    forall i | 0 <= i < |rows| ensures RowFits(w.(rows := rows), bc, rows[i]) && SameIdentity(w.rows[i], rows[i]) {
      assert RowFits(w, bc, w.rows[i]) && w.rows[i] in w.rows;
    }
    forall g | g in w.landed ensures exists i :: 0 <= i < |rows| && rows[i].guid == g {
      var i :| 0 <= i < |w.rows| && w.rows[i].guid == g;
      assert SameIdentity(w.rows[i], rows[i]);
    }
  }

  lemma ApiCallKeeps(w: World, bc: string, key: Key, e: Edit)
    requires Safe(w, bc) && Harmless(w, bc, key, e)
    ensures Safe(w.(rows := Put(w.rows, key, e)), bc)
  {
    var w' := w.(rows := Put(w.rows, key, e));
    ApiCallKeepsRows(w, bc, key, e);
    forall q: Purse | OnChain(q, bc) ensures FundsFit(w', q) && Claimed(w', q) <= Received(w', q) {
      forall i | 0 <= i < |w.rows|
        ensures LandedW(q, w.landed)(w.rows[i]) == LandedW(q, w.landed)(w'.rows[i])
        ensures ClaimW(q, w.landed)(w'.rows[i]) <= ClaimW(q, w.landed)(w.rows[i])
      {
        assert RowFits(w, bc, w.rows[i]) && w.rows[i] in w.rows;
      }
      SumSame(w.rows, w'.rows, LandedW(q, w.landed), LandedW(q, w.landed));
      SumMonotone(w'.rows, w.rows, ClaimW(q, w.landed), ClaimW(q, w.landed));
      assert FundsFit(w, q);
    }
  }

  /** Of the API calls on any row, exactly the harmless ones keep the books safe. */
  lemma ApiCallIsSafeIff(w: World, bc: string, key: Key, e: Edit)
    requires Safe(w, bc) && (e.Process? || e.Reject?)
    ensures Safe(w.(rows := Put(w.rows, key, e)), bc) <==> Harmless(w, bc, key, e)
  {
    var w' := w.(rows := Put(w.rows, key, e));
    if Harmless(w, bc, key, e) {
      ApiCallKeeps(w, bc, key, e);
    } else {
      var t :| t in w.rows && KeyOf(t) == key && t.action == Deposit && t.blockchain == bc && t.guid !in w.landed;
      var i := IndexOf(w.rows, t);
      assert !RowFits(w', bc, w'.rows[i]);
    }
  }

  lemma NextKeeps(bc: string, w: World, step: Step, w': World)
    requires Safe(w, bc) && Next(bc, w, step, w')
    ensures Safe(w', bc)
  {
    match step
    case Receive(p, units) => ReceiveKeeps(w, bc, p, units);
    case Callback(p, guid, extWallet, hash) => CallbackKeeps(w, bc, p, guid, extWallet, hash);
    case Transfer(t, a) => TransferKeeps(w, bc, t, a);
    case Confirm(t, status) => ConfirmKeeps(w, bc, t, status);
    case Api(key, e) => ApiCallKeeps(w, bc, key, e);
    case Later(rows, balance) => LaterKeeps(w, bc, rows, balance);
  }

  ghost predicate Run(bc: string, states: seq<World>, steps: seq<Step>) {
    && |states| == |steps| + 1
    && forall i :: 0 <= i < |steps| ==> Next(bc, states[i], steps[i], states[i + 1])
  }

  /** In every run from an empty table, no user is ever credited more of a coin than the wallet received. */
  lemma NeverOverCredited(bc: string, states: seq<World>, steps: seq<Step>, n: nat, p: Purse)
    requires Run(bc, states, steps) && n < |states| && OnChain(p, bc)
    requires states[0] == World([], map[], map[], {})
    ensures Safe(states[n], bc)
    ensures Credited(states[n], p) <= Received(states[n], p)
  {
    EveryStateIsSafe(bc, states, steps, n);
    CreditIsClaimed(states[n], bc, p);
  }

  lemma {:induction false} EveryStateIsSafe(bc: string, states: seq<World>, steps: seq<Step>, n: nat)
    requires Run(bc, states, steps) && n < |states|
    requires states[0] == World([], map[], map[], {})
    ensures Safe(states[n], bc)
  {
    if n > 0 {
      EveryStateIsSafe(bc, states, steps, n - 1);
      assert Next(bc, states[n - 1], steps[n - 1], states[n]);
      NextKeeps(bc, states[n - 1], steps[n - 1], states[n]);
    }
  }

  /** A callback adds what is missing. */
  lemma CallbackAdds(w: World, p: Purse, guid: nat, extWallet: string, hash: string)
    requires InitTotal(w.rows, p.user) <= Bal(w.balance, p.Account(), p.coin) as real
    ensures var w' := w.(rows := Observe(w.rows, Seen(w, p, guid, extWallet, hash)));
            Claimed(w', p) == Claimed(w, p) + Bal(w.balance, p.Account(), p.coin) as real - InitTotal(w.rows, p.user)
  {
    var o := Seen(w, p, guid, extWallet, hash);
    var rest := o.amount - InitTotal(w.rows, p.user);
    if rest > 0.0 {
      SumAppend(w.rows, NewDeposit(o, rest), ClaimW(p, w.landed));
    }
  }

  /** A callback closes the gap between what is claimed and what was received, as long as the user's `init` deposits
      are of the observed coin and still in the wallet. */
  lemma CallbackClosesTheGap(w: World, bc: string, p: Purse, guid: nat, extWallet: string, hash: string)
    requires Safe(w, bc) && OnChain(p, bc) && InitsFit(w, p)
    ensures var w' := w.(rows := Observe(w.rows, Seen(w, p, guid, extWallet, hash))); Claimed(w', p) == Received(w', p)
  {
    ClaimIsCovered(w, bc, p);
    assert FundsFit(w, p);
    CallbackAdds(w, p, guid, extWallet, hash);
  }

  /** … and right after a callback a user with deposits in one asset is credited exactly what the wallet received,
      as long as no `init` deposit of the user carries a transfer hash and no landed one was rejected. */
  lemma ExactAfterCallback(bc: string, states: seq<World>, steps: seq<Step>, n: nat)
    requires Run(bc, states, steps) && n < |steps| && states[0] == World([], map[], map[], {})
    requires steps[n].Callback?
    requires forall t :: t in states[n].rows && IsDeposit(t, steps[n].p.user) && t.status == Init ==>
               Of(t, steps[n].p) && t.hash2 == ""
    ensures var w', p := states[n + 1], steps[n].p;
            && Claimed(w', p) == Received(w', p)
            && (NoLandedRejected(w', p) ==> Credited(w', p) == Received(w', p))
  {
    var w, p := states[n], steps[n].p;
    EveryStateIsSafe(bc, states, steps, n);
    assert Next(bc, w, steps[n], states[n + 1]);
    forall t | t in w.rows && IsDeposit(t, p.user) && t.status == Init ensures Of(t, p) && t.guid !in w.landed {
      var i := IndexOf(w.rows, t);
      assert RowFits(w, bc, w.rows[i]);
    }
    CallbackClosesTheGap(w, bc, p, steps[n].guid, steps[n].extWallet, steps[n].hash);
    if NoLandedRejected(states[n + 1], p) {
      ClaimIsCredited(states[n + 1], p);
    }
  }

  // What a harmful API call does.

  /** The table after `UpdateWithdraw` named this row. */
  function Updated(w: World, t: Tx, hash: string, commission: real): World {
    w.(rows := Put(w.rows, KeyOf(t), Process(hash, commission)))
  }

  lemma UpdateKeepsInits(w: World, p: Purse, t: Tx, hash: string, commission: real)
    requires UniqueGuids(w.rows) && t in w.rows && InitsFit(w, p)
    ensures InitsFit(Updated(w, t, hash, commission), p)
  {
    var w1 := Updated(w, t, hash, commission);
    var i := IndexOf(w.rows, t);
    forall u | u in w1.rows && IsDeposit(u, p.user) && u.status == Init ensures Of(u, p) && u.guid !in w1.landed {
      var k :| 0 <= k < |w1.rows| && w1.rows[k] == u;
      assert k != i && w.rows[k] in w.rows;
    }
  }

  /** A total changes by what the weight of the updated row does. */
  lemma UpdateMovesSum(w: World, t: Tx, hash: string, commission: real, weight: Tx -> real)
    requires UniqueGuids(w.rows) && t in w.rows
    ensures Sum(Updated(w, t, hash, commission).rows, weight)
         == Sum(w.rows, weight) - weight(t) + weight(Edited(t, Process(hash, commission)))
  {
    var i := IndexOf(w.rows, t);
    SumDiffersAt(w.rows, Updated(w, t, hash, commission).rows, weight, weight, i);
  }

  lemma UpdateMovesTotals(w: World, bc: string, p: Purse, t: Tx, hash: string, commission: real)
    requires Safe(w, bc) && OnChain(p, bc) && t in w.rows && Of(t, p) && t.guid !in w.landed && InitsFit(w, p)
    ensures var w1 := Updated(w, t, hash, commission);
            && Claimed(w1, p) == InitTotal(w1.rows, p.user) + Sum(w1.rows, LandedW(p, w1.landed)) + t.amount
            && InitTotal(w1.rows, p.user) <= InitTotal(w.rows, p.user)
            && Sum(w1.rows, LandedW(p, w1.landed)) == Sum(w.rows, LandedW(p, w.landed))
  {
    var i := IndexOf(w.rows, t);
    assert RowFits(w, bc, w.rows[i]);
    ClaimIsCovered(w, bc, p);
    UpdateMovesSum(w, t, hash, commission, ClaimW(p, w.landed));
    UpdateMovesSum(w, t, hash, commission, InitW(p.user));
    UpdateMovesSum(w, t, hash, commission, LandedW(p, w.landed));
  }

  /** An update that names a deposit whose funds are still in the wallet credits it twice: the next callback finds them
      there and inserts them again. */
  lemma UpdatedDepositIsCreditedTwice(w: World, bc: string, p: Purse, t: Tx, hash: string, commission: real,
                                      guid: nat, extWallet: string, hash1: string)
    requires Safe(w, bc) && OnChain(p, bc) && InitsFit(w, p)
    requires t in w.rows && Of(t, p) && t.guid !in w.landed
    ensures var w1 := Updated(w, t, hash, commission);
            var w2 := w1.(rows := Observe(w1.rows, Seen(w1, p, guid, extWallet, hash1)));
            && Claimed(w2, p) == Received(w2, p) + t.amount
            && (NoLandedRejected(w2, p) ==> Credited(w2, p) == Received(w2, p) + t.amount)
  {
    var w1 := Updated(w, t, hash, commission);
    UpdateMovesTotals(w, bc, p, t, hash, commission);
    ClaimIsCovered(w, bc, p);
    assert FundsFit(w, p);
    CallbackAdds(w1, p, guid, extWallet, hash1);
    var w2 := w1.(rows := Observe(w1.rows, Seen(w1, p, guid, extWallet, hash1)));
    if NoLandedRejected(w2, p) {
      ClaimIsCredited(w2, p);
    }
  }

  lemma TenReceived(p: Purse) returns (w: World)
    requires OnChain(p, p.user.blockchain)
    ensures Safe(w, p.user.blockchain) && Received(w, p) == 10.0 && w.landed == {}
    ensures |w.rows| == 1 && Of(w.rows[0], p) && w.rows[0].status == Init && w.rows[0].amount == 10.0
    ensures w.rows[0].guid == 0
  {
    var empty, bc := World([], map[], map[], {}), p.user.blockchain;
    var funded := empty.(balance := Deposited(map[], p, 10), received := Deposited(map[], p, 10));
    NextKeeps(bc, empty, Receive(p, 10), funded);
    w := funded.(rows := Observe([], Seen(funded, p, 0, "", "")));
    NextKeeps(bc, funded, Callback(p, 0, "", ""), w);
  }

  /** Ten received, one `init` deposit of ten: an update names it, one more callback, and twenty are credited. */
  lemma TenIsCreditedTwice() returns (w: World, p: Purse, t: Tx)
    ensures Safe(w, "chain") && t in w.rows && t.status == Init && Received(w, p) == 10.0
    ensures var w1 := Updated(w, t, "hash", 0.0);
            Credited(w1.(rows := Observe(w1.rows, Seen(w1, p, 1, "", ""))), p) == 20.0
  {
    p := Purse(User("merchant", "user", "chain"), Coin("token", "issuer"));
    assert !Contains("user", "merchant");
    w := TenReceived(p);
    t := w.rows[0];
    UpdatedDepositIsCreditedTwice(w, "chain", p, t, "hash", 0.0, 1, "", "");
  }

  // The service's own phases are such steps.

  /** What the chain answers about a deposit is consistent with where its funds are. */
  ghost predicate Truthful(w: World, t: Tx, a: InitAnswer) {
    && a.stored && (a.transfer.Some? ==> a.transfer.value != "")
    && (t.hash2 != "" ==>
          (a.status == Successful ==> t.guid in w.landed) && (a.status == Failed ==> t.guid !in w.landed))
  }

  function InitRow(w: World, t: Tx, a: InitAnswer): World {
    if t.hash2 == "" then TransferRow(w, t, a) else w.(rows := PutAll(w.rows, KeyOf(t), InitEdit(t, a)))
  }

  function InitLoop(w: World, batch: seq<Tx>, answers: nat -> InitAnswer): World {
    if batch == [] then w
    else
      var t := batch[|batch| - 1];
      InitRow(InitLoop(w, batch[..|batch| - 1], answers), t, answers(t.guid))
  }

  /** The loop of `processDepositInitiated` has the rows and balances that the method's contract states. */
  lemma {:induction false} InitLoopIsThePhase(w: World, batch: seq<Tx>, answers: nat -> InitAnswer)
    ensures InitLoop(w, batch, answers).rows == Puts(w.rows, batch, InitEdits(answers))
    ensures InitLoop(w, batch, answers).balance == Gather(w.balance, batch, answers)
    ensures InitLoop(w, batch, answers).received == w.received
    ensures w.landed <= InitLoop(w, batch, answers).landed
    ensures forall g :: g in InitLoop(w, batch, answers).landed && g !in w.landed ==> HasGuid(batch, g)
  {
    if batch != [] {
      var rest, last := batch[..|batch| - 1], batch[|batch| - 1];
      InitLoopIsThePhase(w, rest, answers);
      forall g | g in InitLoop(w, batch, answers).landed && g !in w.landed ensures HasGuid(batch, g) {
        if HasGuid(rest, g) {
          var i :| 0 <= i < |rest| && rest[i].guid == g;
          assert batch[i].guid == g;
        } else {
          assert batch[|batch| - 1].guid == g;
        }
      }
    }
  }

  ghost predicate ToVisit(w: World, batch: seq<Tx>, j: nat, bc: string)
    requires j <= |batch|
  {
    forall k :: j <= k < |batch| ==>
      batch[k] in w.rows && batch[k].action == Deposit && batch[k].status == Init && batch[k].blockchain == bc
  }

  lemma InitLoopStep(w: World, batch: seq<Tx>, answers: nat -> InitAnswer, j: nat)
    requires j < |batch| && UniqueGuids(batch)
    ensures var before := InitLoop(w, batch[..j], answers);
            && InitLoop(w, batch[..j + 1], answers) == InitRow(before, batch[j], answers(batch[j].guid))
            && (batch[j].guid in before.landed <==> batch[j].guid in w.landed)
  {
    assert batch[..j + 1][..j] == batch[..j];
    InitLoopIsThePhase(w, batch[..j], answers);
    forall k | 0 <= k < j ensures batch[..j][k].guid != batch[j].guid {
    }
  }

  lemma InitVisitKeeps(w: World, bc: string, batch: seq<Tx>, j: nat, a: InitAnswer)
    requires Safe(w, bc) && UniqueGuids(batch) && j < |batch| && ToVisit(w, batch, j, bc) && Truthful(w, batch[j], a)
    ensures Safe(InitRow(w, batch[j], a), bc)
    ensures ToVisit(InitRow(w, batch[j], a), batch, j + 1, bc)
  {
    var t, w' := batch[j], InitRow(w, batch[j], a);
    if t.hash2 == "" {
      TransferKeeps(w, bc, t, a);
    } else {
      ConfirmKeeps(w, bc, t, a.status);
    }
    forall k | j + 1 <= k < |batch| ensures batch[k] in w'.rows {
      var i := IndexOf(w.rows, batch[k]);
      assert batch[k].guid != t.guid;
      PutAllAt(w.rows, KeyOf(t), InitEdit(t, a), i);
      assert w'.rows[i] == batch[k];
    }
  }

  lemma InitIterationKeeps(w: World, bc: string, batch: seq<Tx>, answers: nat -> InitAnswer, j: nat)
    requires UniqueGuids(batch) && j < |batch| && Truthful(w, batch[j], answers(batch[j].guid))
    requires Safe(InitLoop(w, batch[..j], answers), bc) && ToVisit(InitLoop(w, batch[..j], answers), batch, j, bc)
    ensures Safe(InitLoop(w, batch[..j + 1], answers), bc)
    ensures ToVisit(InitLoop(w, batch[..j + 1], answers), batch, j + 1, bc)
  {
    InitLoopStep(w, batch, answers, j);
    InitVisitKeeps(InitLoop(w, batch[..j], answers), bc, batch, j, answers(batch[j].guid));
  }

  /** … and each of its iterations is a `Transfer` or `Confirm` step, so the phase keeps the books safe. */
  lemma {:induction false} InitLoopKeeps(w: World, bc: string, batch: seq<Tx>, answers: nat -> InitAnswer, j: nat)
    requires Safe(w, bc) && UniqueGuids(batch) && j <= |batch| && ToVisit(w, batch, 0, bc)
    requires forall k :: 0 <= k < |batch| ==> Truthful(w, batch[k], answers(batch[k].guid))
    ensures Safe(InitLoop(w, batch[..j], answers), bc)
    ensures ToVisit(InitLoop(w, batch[..j], answers), batch, j, bc)
  {
    if j == 0 {
      assert InitLoop(w, batch[..0], answers) == w;
    } else {
      InitLoopKeeps(w, bc, batch, answers, j - 1);
      InitIterationKeeps(w, bc, batch, answers, j - 1);
    }
  }

  /** `processDepositInitiated` as a whole, with the rows and balances of its contract, keeps the books safe. */
  lemma InitiatedPhaseKeeps(w: World, p: Pair, answers: nat -> InitAnswer)
    requires Safe(w, p.blockchain)
    requires forall t :: t in DepositBatch(w.rows, p, Init) ==> Truthful(w, t, answers(t.guid))
    ensures var w' := InitLoop(w, DepositBatch(w.rows, p, Init), answers);
            && w'.rows == InitPhase(w.rows, p, answers) && w'.received == w.received
            && w'.balance == Gather(w.balance, DepositBatch(w.rows, p, Init), answers)
            && Safe(w', p.blockchain)
  {
    var batch := DepositBatch(w.rows, p, Init);
    FetchHasUniqueGuids(w.rows, Query(p.merchant, p.blockchain, Deposit, Init), BATCH_LIMIT);
    FetchMembers(w.rows, Query(p.merchant, p.blockchain, Deposit, Init), BATCH_LIMIT);
    assert batch[..|batch|] == batch;
    InitLoopIsThePhase(w, batch, answers);
    InitLoopKeeps(w, p.blockchain, batch, answers, |batch|);
  }
}
