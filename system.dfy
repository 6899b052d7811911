/**
 * The system pallet, kept to what the runtime uses of it: the current block
 * number and a per-account nonce, both starting at zero and both only ever
 * incremented by one. The repository's `system.rs` is not part of this model.
 */
module System {
  import opened Support

  /** The nonce of `who`, zero when it has never been the caller of an extrinsic. */
  function NonceIn(nonces: map<AccountId, nat>, who: AccountId): nat
  {
    if who in nonces then nonces[who] else 0
  }

  class Pallet {
    var blockNumber: nat
    var nonces: map<AccountId, nat>

    /** A new pallet is at block 0 and every nonce reads as zero. */
    constructor ()
      ensures blockNumber == 0 && nonces == map[]
      ensures forall who :: Nonce(who) == 0
    {
      blockNumber := 0;
      nonces := map[];
    }

    /** The number of the block being executed, 0 before the first one. */
    function BlockNumber(): nat
      reads this
    {
      blockNumber
    }

    /** The nonce of `who`: its entry, or zero when it has never called. */
    function Nonce(who: AccountId): nat
      reads this
    {
      NonceIn(nonces, who)
    }

    /** Advances the block number by exactly one. */
    method IncBlockNumber()
      modifies this
      ensures blockNumber == old(blockNumber) + 1
      ensures nonces == old(nonces)
    {
      blockNumber := blockNumber + 1;
    }

    /** Advances the nonce of `who` by exactly one, creating the entry if absent; no other nonce changes. */
    method IncNonce(who: AccountId)
      modifies this
      ensures nonces == old(nonces)[who := NonceIn(old(nonces), who) + 1]
      ensures Nonce(who) == old(Nonce(who)) + 1
      ensures forall other :: other != who ==> Nonce(other) == old(Nonce(other))
      ensures blockNumber == old(blockNumber)
    {
      nonces := nonces[who := Nonce(who) + 1];
    }
  }
}
