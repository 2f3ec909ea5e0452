/** The in-memory signer of internal/signer/signer.go: a 64-bit counter with one-step undo. */
module Signer {
  import opened Common

  class Signer {
    const appId: nat
    const address: nat
    var nonce: nat

    ghost predicate Valid()
      reads this
    {
      nonce < U64
    }

    constructor (appId: nat, address: nat, nonce: nat)
      requires nonce < U64
      ensures Valid() && this.appId == appId && this.address == address && this.nonce == nonce
    {
      this.appId, this.address, this.nonce := appId, address, nonce;
    }

    /** `Add(1) - 1`: the subtraction is a 64-bit one too. */
    method UseNonce() returns (n: nat)
      requires Valid()
      modifies this
      ensures Valid()
      ensures n == old(nonce)
      ensures nonce == if n == U64 - 1 then 0 else n + 1
    {
      nonce := Inc(nonce);
      n := Dec(nonce);
      AddThenUndo(old(nonce));
    }

    /** `Add(^uint64(0))`. */
    method RewindNonce()
      requires Valid()
      modifies this
      ensures Valid()
      ensures nonce == if old(nonce) == 0 then U64 - 1 else old(nonce) - 1
    {
      nonce := Dec(nonce);
    }

    method ResetNonce(n: nat)
      requires n < U64
      modifies this
      ensures Valid() && nonce == n
    {
      nonce := n;
    }
  }

  /** Taking a nonce and rewinding it is the identity on the counter, at the wrap-around too. */
  lemma AddThenUndo(n: nat)
    requires n < U64
    ensures Dec(Inc(n)) == n && Inc(Dec(n)) == n && Inc(n) < U64 && Dec(n) < U64
  {
  }
}
