/** Balances on the blockchain, as far as the processor moves them.

    Gas top-ups are in the native denom and are not modelled; a coin is an asset together with its issuer. */
module Ledger {

  datatype Option<+T> = None | Some(value: T)

  datatype Coin = Coin(asset: string, issuer: string)

  /** `Wallet` is the address a user's wallet is stored under. For a multi-signature wallet that is the group's address,
      and `OwnKey` is the address of the one key in it that the service holds itself. */
  datatype Account =
    | Wallet(merchant: string, external: string)
    | OwnKey(merchant: string, external: string)
    | ProcessingReceiving
    | ProcessingSending
    | Outside(address: string)

  type Balances = map<(Account, Coin), int>

  /** Go's `int64(x)`: truncation toward zero. */
  function Trunc(x: real): (n: int)
    ensures x >= 0.0 ==> n >= 0 && n as real <= x < n as real + 1.0
    ensures x <= 0.0 ==> n <= 0 && n as real - 1.0 < x <= n as real
  {
    if x >= 0.0 then x.Floor else -((-x).Floor)
  }

  predicate Whole(x: real) {
    x == x.Floor as real
  }

  function Bal(b: Balances, a: Account, c: Coin): int {
    if (a, c) in b then b[(a, c)] else 0
  }

  function Move(b: Balances, from: Account, to: Account, c: Coin, n: int): (b': Balances)
    ensures forall a, d :: Bal(b', a, d) ==
                           Bal(b, a, d) - (if a == from && d == c then n else 0) + (if a == to && d == c then n else 0)
  {
    var paid := b[(from, c) := Bal(b, from, c) - n];
    paid[(to, c) := Bal(paid, to, c) + n]
  }

  /** The chain of one processor. `Send` is a `MsgSend` broadcast; the chain's answer is an input:
      `None` means refused and nothing moved, `Some(hash)` means executed. */
  class Chain {
    var balance: Balances

    method Send(from: Account, to: Account, c: Coin, amount: real, answer: Option<string>)
      returns (r: Option<string>)
      modifies this
      ensures r == answer
      ensures balance == if answer.Some? then Move(old(balance), from, to, c, Trunc(amount)) else old(balance)
    {
      if answer.Some? {
        balance := Move(balance, from, to, c, Trunc(amount));
      }
      r := answer;
    }
  }
}
