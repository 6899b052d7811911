/**
 * The balances pallet: a ledger from account to balance in which an absent
 * entry reads as zero, with checked transfers between accounts.
 *
 * The pure functions (`LedgerBalance`, `LedgerTransfer`, `LedgerDispatch`)
 * say what each operation does to a ledger value; the `Pallet` class performs
 * the operations in place and is proved against them; the lemmas state what
 * the source promises about them.
 */
module Balances {
  import opened Support

  /** The largest value of the runtime's `u128` balance type. */
  const MaxBalance: nat := 0xFFFF_FFFF_FFFF_FFFF_FFFF_FFFF_FFFF_FFFF

  type Balance = b: nat | b <= MaxBalance

  type Ledger = map<AccountId, Balance>

  const NotEnoughFunds: string := "Not enough funds"
  const Overflow: string := "Overflow"

  /** A ledger together with the outcome of the call that produced it. */
  datatype Applied = Applied(ledger: Ledger, outcome: Outcome)

  /** The calls of this pallet that can be dispatched from an extrinsic. */
  datatype Call = Transfer(to: AccountId, amount: Balance)

  /** The balance of `who`, zero when the ledger has no entry for it. */
  function LedgerBalance(ledger: Ledger, who: AccountId): Balance
  {
    if who in ledger then ledger[who] else 0
  }

  /**
   * What `transfer` does to a ledger: checked subtraction on the source,
   * checked addition on the destination, both before anything is written;
   * then the source is written and after it the destination.
   */
  function LedgerTransfer(ledger: Ledger, source: AccountId, dest: AccountId, amount: Balance): Applied
  {
    var sourceBalance := LedgerBalance(ledger, source);
    var destBalance := LedgerBalance(ledger, dest);
    if amount > sourceBalance then Applied(ledger, Err(NotEnoughFunds))
    else if destBalance + amount > MaxBalance then Applied(ledger, Err(Overflow))
    else Applied(ledger[source := sourceBalance - amount][dest := destBalance + amount], Ok)
  }

  /** Dispatching a call of this pallet on behalf of `caller`. */
  function LedgerDispatch(ledger: Ledger, caller: AccountId, call: Call): Applied
  {
    match call
    case Transfer(to, amount) => LedgerTransfer(ledger, caller, to, amount)
  }

  /** The sum of all balances in the ledger. */
  ghost function Total(ledger: Ledger): nat
    decreases |ledger|
  {
    if ledger == map[] then 0
    else
      var who :| who in ledger;
      assert |ledger - {who}| < |ledger| by {
        assert (ledger - {who}).Keys == ledger.Keys - {who};
      }
      ledger[who] + Total(ledger - {who})
  }

  /** The ledger held by one instance of the pallet, updated in place. */
  class Pallet {
    var balances: Ledger

    /** A new pallet holds no entries, so every balance reads as zero. */
    constructor ()
      ensures balances == map[]
      ensures forall who :: BalanceOf(who) == 0
    {
      balances := map[];
    }

    /** The balance of `who`, zero if it was never set. */
    function BalanceOf(who: AccountId): Balance
      reads this
    {
      LedgerBalance(balances, who)
    }

    /** Overwrites (or inserts) the entry of `who`; never fails. */
    method SetBalance(who: AccountId, amount: Balance)
      modifies this
      ensures balances == old(balances)[who := amount]
      ensures BalanceOf(who) == amount
      ensures forall other :: other != who ==> BalanceOf(other) == old(BalanceOf(other))
    {
      balances := balances[who := amount];
    }

    /** Moves `amount` from `source` to `dest`, or fails and changes nothing. */
    method Transfer(source: AccountId, dest: AccountId, amount: Balance) returns (r: Outcome)
      modifies this
      ensures Applied(balances, r) == LedgerTransfer(old(balances), source, dest, amount)
      ensures r.Err? ==> balances == old(balances)
    {
      var sourceBalance := BalanceOf(source);
      var destBalance := BalanceOf(dest);
      if amount > sourceBalance {
        return Err(NotEnoughFunds);
      }
      if destBalance + amount > MaxBalance {
        return Err(Overflow);
      }
      SetBalance(source, sourceBalance - amount);
      SetBalance(dest, destBalance + amount);
      r := Ok;
    }

    /** Executes a call of this pallet with `caller` as the source account. */
    method Dispatch(caller: AccountId, call: Call) returns (r: Outcome)
      modifies this
      ensures Applied(balances, r) == LedgerDispatch(old(balances), caller, call)
    {
      match call
      case Transfer(to, amount) =>
        r := Transfer(caller, to, amount);
    }
  }

  // ---------------------------------------------------------------------
  // Properties of the ledger operations
  // ---------------------------------------------------------------------

  /** An account never set reads zero; setting a balance changes that account's balance and no other. */
  lemma SetBalanceOnlyTouchesItsAccount(ledger: Ledger, who: AccountId, amount: Balance, other: AccountId)
    ensures who !in ledger ==> LedgerBalance(ledger, who) == 0
    ensures LedgerBalance(ledger[who := amount], who) == amount
    ensures other != who ==> LedgerBalance(ledger[who := amount], other) == LedgerBalance(ledger, other)
  {
  }

  /** A transfer fails for lack of funds exactly when the amount exceeds the source balance. */
  lemma TransferNotEnoughFunds(ledger: Ledger, source: AccountId, dest: AccountId, amount: Balance)
    ensures LedgerTransfer(ledger, source, dest, amount).outcome == Err(NotEnoughFunds)
            <==> amount > LedgerBalance(ledger, source)
  {
  }

  /** Once the source check passes, a transfer overflows exactly when the destination would exceed the maximum. */
  lemma TransferOverflow(ledger: Ledger, source: AccountId, dest: AccountId, amount: Balance)
    ensures LedgerTransfer(ledger, source, dest, amount).outcome == Err(Overflow)
            <==> amount <= LedgerBalance(ledger, source) && LedgerBalance(ledger, dest) + amount > MaxBalance
  {
  }

  /** A transfer succeeds exactly when both checks pass; when it fails, nothing is written. */
  lemma TransferIsAtomic(ledger: Ledger, source: AccountId, dest: AccountId, amount: Balance)
    ensures var r := LedgerTransfer(ledger, source, dest, amount);
            (r.outcome == Ok <==>
              amount <= LedgerBalance(ledger, source) && LedgerBalance(ledger, dest) + amount <= MaxBalance)
            && (r.outcome.Err? ==> r.ledger == ledger)
  {
  }

  /** A successful transfer between two distinct accounts moves exactly `amount` and touches no third account. */
  lemma TransferMovesFunds(ledger: Ledger, source: AccountId, dest: AccountId, amount: Balance, other: AccountId)
    requires source != dest
    requires LedgerTransfer(ledger, source, dest, amount).outcome == Ok
    ensures var after := LedgerTransfer(ledger, source, dest, amount).ledger;
            && LedgerBalance(after, source) == LedgerBalance(ledger, source) - amount
            && LedgerBalance(after, dest) == LedgerBalance(ledger, dest) + amount
            && (other != source && other != dest ==> LedgerBalance(after, other) == LedgerBalance(ledger, other))
  {
  }

  /**
   * A transfer from an account to itself reads the same balance twice and the
   * second write wins: the account gains `amount` and no other account changes.
   */
  lemma TransferToSelf(ledger: Ledger, who: AccountId, amount: Balance, other: AccountId)
    requires LedgerTransfer(ledger, who, who, amount).outcome == Ok
    ensures var after := LedgerTransfer(ledger, who, who, amount).ledger;
            && LedgerBalance(after, who) == LedgerBalance(ledger, who) + amount
            && (other != who ==> LedgerBalance(after, other) == LedgerBalance(ledger, other))
            && Total(after) == Total(ledger) + amount
  {
    TotalUpdate(ledger[who := LedgerBalance(ledger, who) - amount], who, LedgerBalance(ledger, who) + amount);
    TotalUpdate(ledger, who, LedgerBalance(ledger, who) - amount);
  }

  /** Any transfer between two distinct accounts, successful or not, preserves the total. */
  lemma TransferConserves(ledger: Ledger, source: AccountId, dest: AccountId, amount: Balance)
    requires source != dest
    ensures Total(LedgerTransfer(ledger, source, dest, amount).ledger) == Total(ledger)
  {
    if LedgerTransfer(ledger, source, dest, amount).outcome == Ok {
      var sourceBalance := LedgerBalance(ledger, source);
      var destBalance := LedgerBalance(ledger, dest);
      var debited := ledger[source := sourceBalance - amount];
      TotalUpdate(ledger, source, sourceBalance - amount);
      TotalUpdate(debited, dest, destBalance + amount);
      assert LedgerBalance(debited, dest) == destBalance;
    }
  }

  /** Removing one entry takes its balance off the total, whichever entry `Total` picked first. */
  lemma {:induction false} TotalRemove(ledger: Ledger, who: AccountId)
    requires who in ledger
    ensures Total(ledger) == ledger[who] + Total(ledger - {who})
    decreases |ledger|
  {
    var pick :| pick in ledger && Total(ledger) == ledger[pick] + Total(ledger - {pick});
    if pick != who {
      var withoutPick := ledger - {pick};
      var withoutWho := ledger - {who};
      assert withoutPick.Keys == ledger.Keys - {pick};
      assert withoutWho.Keys == ledger.Keys - {who};
      TotalRemove(withoutPick, who);
      TotalRemove(withoutWho, pick);
      assert withoutPick - {who} == withoutWho - {pick};
    }
  }

  /** Overwriting one balance changes the total by the difference of the new and the old balance. */
  lemma TotalUpdate(ledger: Ledger, who: AccountId, amount: Balance)
    ensures Total(ledger[who := amount]) + LedgerBalance(ledger, who) == Total(ledger) + amount
  {
    var updated := ledger[who := amount];
    TotalRemove(updated, who);
    if who in ledger {
      TotalRemove(ledger, who);
      assert updated - {who} == ledger - {who};
    } else {
      assert updated - {who} == ledger;
    }
  }

  // ---------------------------------------------------------------------
  // The pallet's own unit tests, as clients of the class
  // ---------------------------------------------------------------------

  /** An unset account reads 0; after `set_balance` it reads the amount set, and others still read 0. */
  method InitBalances() returns (aliceBefore: Balance, aliceAfter: Balance, bob: Balance)
    ensures aliceBefore == 0 && aliceAfter == 100 && bob == 0
  {
    var pallet := new Pallet();
    aliceBefore := pallet.BalanceOf("alice");
    pallet.SetBalance("alice", 100);
    aliceAfter := pallet.BalanceOf("alice");
    bob := pallet.BalanceOf("bob");
  }

  /** A transfer from an empty account fails; with funds it moves them; overdrawing fails again. */
  method TransferBalance() returns (first: Outcome, second: Outcome, alice: Balance, bob: Balance, third: Outcome)
    ensures first == Err(NotEnoughFunds)
    ensures second == Ok && alice == 99 && bob == 1
    ensures third == Err(NotEnoughFunds)
  {
    var pallet := new Pallet();
    first := pallet.Transfer("alice", "bob", 1);
    pallet.SetBalance("alice", 100);
    second := pallet.Transfer("alice", "bob", 1);
    alice := pallet.BalanceOf("alice");
    bob := pallet.BalanceOf("bob");
    third := pallet.Transfer("alice", "bob", 100);
  }
}
