/**
 * The runtime: one system pallet and one balances pallet, a top-level call
 * type wrapping each pallet's calls, a dispatcher that routes a call to its
 * pallet, and the block executor.
 *
 * `State` is a snapshot of everything the runtime owns. The functions
 * `RuntimeDispatch`, `ApplyExtrinsic`, `ApplyRange` and `BlockExecution`
 * say what each step does to a snapshot; the `Runtime` class performs the
 * steps in place and is proved against them; the lemmas state what the block
 * executor promises.
 */
module Runtime {
  import opened Support
  import System
  import Balances

  const BlockNumberMismatch: string := "block number does not match what is expected"

  /** Every call exposed to extrinsics: one variant per pallet, wrapping that pallet's calls. */
  datatype RuntimeCall = Balances(call: Balances.Call)

  datatype Extrinsic = Extrinsic(caller: AccountId, call: RuntimeCall)
  datatype Header = Header(blockNumber: nat)
  datatype Block = Block(header: Header, extrinsics: seq<Extrinsic>)

  /** An extrinsic that failed: the block it was in, its position in the block and its error. */
  datatype Failure = Failure(blockNumber: nat, index: nat, error: string)

  /** Everything the runtime owns: the system pallet's counters and the balances pallet's ledger. */
  datatype State = State(blockNumber: nat, nonces: map<AccountId, nat>, ledger: Balances.Ledger)

  /** The state after an extrinsic, and the result of its dispatch. */
  datatype Step = Step(state: State, outcome: Outcome)

  /** The state after a run of extrinsics, and the failures reported along the way, in order. */
  datatype Run = Run(state: State, failures: seq<Failure>)

  /** The state after a block, its result, and the extrinsic failures reported while executing it. */
  datatype Execution = Execution(state: State, outcome: Outcome, failures: seq<Failure>)

  // ---------------------------------------------------------------------
  // What each step does to a snapshot
  // ---------------------------------------------------------------------

  /** The top-level dispatcher: unwrap the pallet's call and delegate to that pallet. */
  function RuntimeDispatch(ledger: Balances.Ledger, caller: AccountId, call: RuntimeCall): Balances.Applied
  {
    match call
    case Balances(c) => Balances.LedgerDispatch(ledger, caller, c)
  }

  /** One extrinsic: the caller's nonce goes up first, whatever the dispatch then does. */
  function ApplyExtrinsic(st: State, e: Extrinsic): Step
  {
    var nonces := st.nonces[e.caller := System.NonceIn(st.nonces, e.caller) + 1];
    var applied := RuntimeDispatch(st.ledger, e.caller, e.call);
    Step(State(st.blockNumber, nonces, applied.ledger), applied.outcome)
  }

  /** The failure record an outcome produces: one record for an error, none for success. */
  function FailureOf(outcome: Outcome, blockNumber: nat, index: nat): seq<Failure>
  {
    if outcome.Err? then [Failure(blockNumber, index, outcome.msg)] else []
  }

  /**
   * The extrinsics at positions `lo` up to (not including) `hi` of `exts`,
   * applied one after another, each failure recorded with the block number
   * and the extrinsic's position; a failure does not stop the run.
   */
  function ApplyRange(st: State, exts: seq<Extrinsic>, lo: nat, hi: nat, blockNumber: nat): Run
    requires lo <= hi <= |exts|
    decreases hi
  {
    if hi == lo then Run(st, [])
    else
      var prior := ApplyRange(st, exts, lo, hi - 1, blockNumber);
      var step := ApplyExtrinsic(prior.state, exts[hi - 1]);
      Run(step.state, prior.failures + FailureOf(step.outcome, blockNumber, hi - 1))
  }

  /**
   * A whole block: the block number is incremented first; a header that does
   * not carry the new number rejects the block (the increment stays);
   * otherwise every extrinsic is applied and the block succeeds.
   */
  function BlockExecution(st: State, block: Block): Execution
  {
    var next := st.(blockNumber := st.blockNumber + 1);
    if block.header.blockNumber != next.blockNumber then
      Execution(next, Err(BlockNumberMismatch), [])
    else
      var run := ApplyRange(next, block.extrinsics, 0, |block.extrinsics|, block.header.blockNumber);
      Execution(run.state, Ok, run.failures)
  }

  /** The number of extrinsics at positions `lo` up to (not including) `hi` whose caller is `who`. */
  function CallsBy(exts: seq<Extrinsic>, lo: nat, hi: nat, who: AccountId): nat
    requires lo <= hi <= |exts|
    decreases hi
  {
    if hi == lo then 0
    else CallsBy(exts, lo, hi - 1, who) + (if exts[hi - 1].caller == who then 1 else 0)
  }

  /** True when some extrinsic at positions `lo` up to (not including) `hi` is a transfer from its caller to that same caller. */
  predicate HasSelfTransfer(exts: seq<Extrinsic>, lo: nat, hi: nat)
    requires lo <= hi <= |exts|
  {
    exists k :: lo <= k < hi && exts[k].call.call.to == exts[k].caller
  }

  // ---------------------------------------------------------------------
  // The runtime object
  // ---------------------------------------------------------------------

  class Runtime {
    const system: System.Pallet
    const balances: Balances.Pallet

    /** A new runtime: block 0, no nonces, no balances. */
    constructor ()
      ensures fresh(system) && fresh(balances)
      ensures Snapshot() == State(0, map[], map[])
    {
      system := new System.Pallet();
      balances := new Balances.Pallet();
    }

    /** The runtime's current state, read from its two pallets. */
    function Snapshot(): State
      reads system, balances
    {
      State(system.blockNumber, system.nonces, balances.balances)
    }

    /** Routes a call to its pallet on behalf of `caller`; that pallet's error comes back unchanged. */
    method Dispatch(caller: AccountId, call: RuntimeCall) returns (r: Outcome)
      modifies balances
      ensures Balances.Applied(balances.balances, r) == RuntimeDispatch(old(balances.balances), caller, call)
    {
      match call
      case Balances(c) =>
        r := balances.Dispatch(caller, c);
    }

    /**
     * Executes a block. Only a header mismatch fails the block; the failures
     * of individual extrinsics are returned in order instead of aborting it.
     */
    method ExecuteBlock(block: Block) returns (r: Outcome, failures: seq<Failure>)
      modifies system, balances
      ensures Execution(Snapshot(), r, failures) == BlockExecution(old(Snapshot()), block)
    {
      system.IncBlockNumber();
      if block.header.blockNumber != system.BlockNumber() {
        return Err(BlockNumberMismatch), [];
      }
      ghost var start := Snapshot();
      var exts := block.extrinsics;
      failures := [];
      for i := 0 to |exts|
        invariant Run(Snapshot(), failures) == ApplyRange(start, exts, 0, i, block.header.blockNumber)
      {
        var caller := exts[i].caller;
        system.IncNonce(caller);
        var result := Dispatch(caller, exts[i].call);
        if result.Err? {
          failures := failures + [Failure(block.header.blockNumber, i, result.msg)];
        }
      }
      r := Ok;
    }
  }

  // ---------------------------------------------------------------------
  // Properties of dispatch and block execution
  // ---------------------------------------------------------------------

  /** Dispatching a wrapped transfer is exactly the pallet's transfer with the caller as source. */
  lemma DispatchIsTransfer(ledger: Balances.Ledger, caller: AccountId, dest: AccountId, amount: Balances.Balance)
    ensures RuntimeDispatch(ledger, caller, Balances(Balances.Transfer(dest, amount)))
            == Balances.LedgerTransfer(ledger, caller, dest, amount)
  {
  }

  /** An extrinsic bumps its caller's nonce whatever the outcome; a failed one leaves the ledger alone. */
  lemma ExtrinsicStep(st: State, e: Extrinsic, who: AccountId)
    ensures var step := ApplyExtrinsic(st, e);
            && step.state.blockNumber == st.blockNumber
            && System.NonceIn(step.state.nonces, who)
               == System.NonceIn(st.nonces, who) + (if who == e.caller then 1 else 0)
            && (step.outcome.Err? ==> step.state.ledger == st.ledger)
  {
    match e.call
    case Balances(c) => Balances.TransferIsAtomic(st.ledger, e.caller, c.to, c.amount);
  }

  /** Applying extrinsics never changes the block number. */
  lemma {:induction false} ApplyKeepsBlockNumber(st: State, exts: seq<Extrinsic>, lo: nat, hi: nat, blockNumber: nat)
    requires lo <= hi <= |exts|
    ensures ApplyRange(st, exts, lo, hi, blockNumber).state.blockNumber == st.blockNumber
    decreases hi
  {
    if hi > lo {
      ApplyKeepsBlockNumber(st, exts, lo, hi - 1, blockNumber);
    }
  }

  /** After a run, each account's nonce has risen by the number of extrinsics it called. */
  lemma {:induction false} NoncesCountCalls(st: State, exts: seq<Extrinsic>, lo: nat, hi: nat, blockNumber: nat, who: AccountId)
    requires lo <= hi <= |exts|
    ensures System.NonceIn(ApplyRange(st, exts, lo, hi, blockNumber).state.nonces, who)
            == System.NonceIn(st.nonces, who) + CallsBy(exts, lo, hi, who)
    decreases hi
  {
    if hi > lo {
      NoncesCountCalls(st, exts, lo, hi - 1, blockNumber, who);
      ExtrinsicStep(ApplyRange(st, exts, lo, hi - 1, blockNumber).state, exts[hi - 1], who);
    }
  }

  /**
   * Extrinsics are applied strictly in order: running positions `lo` to
   * `hi` is running `lo` to `mid` and then `mid` to `hi` from the state the
   * first part reached, with the failures of the second part after those of
   * the first.
   */
  lemma {:induction false} ApplyInSequence(st: State, exts: seq<Extrinsic>, lo: nat, mid: nat, hi: nat, blockNumber: nat)
    requires lo <= mid <= hi <= |exts|
    ensures var before := ApplyRange(st, exts, lo, mid, blockNumber);
            var after := ApplyRange(before.state, exts, mid, hi, blockNumber);
            (ApplyRange(st, exts, lo, hi, blockNumber) == Run(after.state, before.failures + after.failures))
    decreases hi
  {
    var before := ApplyRange(st, exts, lo, mid, blockNumber);
    if hi == mid {
      assert before.failures + [] == before.failures;
    } else {
      ApplyInSequence(st, exts, lo, mid, hi - 1, blockNumber);
    }
  }

  /**
   * The failures of a run are reported with the block's number, in
   * increasing order of position, and each one names an extrinsic of the run.
   */
  lemma {:induction false} FailuresInOrder(st: State, exts: seq<Extrinsic>, lo: nat, hi: nat, blockNumber: nat)
    requires lo <= hi <= |exts|
    ensures var fs := ApplyRange(st, exts, lo, hi, blockNumber).failures;
            (&& |fs| <= hi - lo
             && (forall k :: 0 <= k < |fs| ==> fs[k].blockNumber == blockNumber && lo <= fs[k].index < hi)
             && (forall j, k :: 0 <= j < k < |fs| ==> fs[j].index < fs[k].index))
    decreases hi
  {
    if hi > lo {
      FailuresInOrder(st, exts, lo, hi - 1, blockNumber);
    }
  }

  /** True when some failure in `fs` names position `k`. */
  predicate Reports(fs: seq<Failure>, k: nat)
  {
    exists j :: 0 <= j < |fs| && fs[j].index == k
  }

  lemma ReportsAppend(a: seq<Failure>, b: seq<Failure>, k: nat)
    ensures Reports(a + b, k) <==> Reports(a, k) || Reports(b, k)
  {
    if Reports(a + b, k) {
      var j :| 0 <= j < |a + b| && (a + b)[j].index == k;
      if j >= |a| {
        assert b[j - |a|].index == k;
      }
    }
    if Reports(a, k) {
      var j :| 0 <= j < |a| && a[j].index == k;
      assert (a + b)[j].index == k;
    }
    if Reports(b, k) {
      var j :| 0 <= j < |b| && b[j].index == k;
      assert (a + b)[|a| + j].index == k;
    }
  }

  /**
   * Position `k` is reported as a failure exactly when extrinsic `k` fails on
   * the state the extrinsics before it reached.
   */
  lemma {:induction false} FailureReported(st: State, exts: seq<Extrinsic>, lo: nat, hi: nat, blockNumber: nat, k: nat)
    requires lo <= k < hi <= |exts|
    ensures var fs := ApplyRange(st, exts, lo, hi, blockNumber).failures;
            var step := ApplyExtrinsic(ApplyRange(st, exts, lo, k, blockNumber).state, exts[k]);
            && (Reports(fs, k) <==> step.outcome.Err?)
            && (step.outcome.Err? ==>
                  exists j :: 0 <= j < |fs| && fs[j] == Failure(blockNumber, k, step.outcome.msg))
    decreases hi
  {
    var prior := ApplyRange(st, exts, lo, hi - 1, blockNumber);
    var last := ApplyExtrinsic(prior.state, exts[hi - 1]);
    var reported := FailureOf(last.outcome, blockNumber, hi - 1);
    ReportsAppend(prior.failures, reported, k);
    if k < hi - 1 {
      FailureReported(st, exts, lo, hi - 1, blockNumber, k);
      assert !Reports(reported, k);
      var step := ApplyExtrinsic(ApplyRange(st, exts, lo, k, blockNumber).state, exts[k]);
      if step.outcome.Err? {
        var j :| 0 <= j < |prior.failures| && prior.failures[j] == Failure(blockNumber, k, step.outcome.msg);
        assert (prior.failures + reported)[j] == prior.failures[j];
      }
    } else {
      FailuresInOrder(st, exts, lo, hi - 1, blockNumber);
      assert !Reports(prior.failures, k);
      assert last.outcome.Err? ==> reported[0].index == k;
      if last.outcome.Err? {
        assert (prior.failures + reported)[|prior.failures|] == Failure(blockNumber, k, last.outcome.msg);
      }
    }
  }

  /** Without self-transfers, a run of extrinsics preserves the total of all balances. */
  lemma {:induction false} ApplyConserves(st: State, exts: seq<Extrinsic>, lo: nat, hi: nat, blockNumber: nat)
    requires lo <= hi <= |exts|
    requires !HasSelfTransfer(exts, lo, hi)
    ensures Balances.Total(ApplyRange(st, exts, lo, hi, blockNumber).state.ledger) == Balances.Total(st.ledger)
    decreases hi
  {
    if hi > lo {
      ApplyConserves(st, exts, lo, hi - 1, blockNumber);
      var prior := ApplyRange(st, exts, lo, hi - 1, blockNumber);
      var e := exts[hi - 1];
      Balances.TransferConserves(prior.state.ledger, e.caller, e.call.call.to, e.call.call.amount);
    }
  }

  /** A block always advances the block number by exactly one, whether it is accepted or not. */
  lemma BlockAdvancesBlockNumber(st: State, block: Block)
    ensures BlockExecution(st, block).state.blockNumber == st.blockNumber + 1
  {
    ApplyKeepsBlockNumber(st.(blockNumber := st.blockNumber + 1), block.extrinsics, 0, |block.extrinsics|, block.header.blockNumber);
  }

  /**
   * A block fails exactly when its header does not carry the incremented
   * block number; it is then rejected before any extrinsic runs: no nonce, no
   * balance changes and nothing is reported.
   */
  lemma BlockRejectedOnMismatch(st: State, block: Block)
    ensures var ex := BlockExecution(st, block);
            (ex.outcome.Err? <==> block.header.blockNumber != st.blockNumber + 1)
            && (ex.outcome.Err? ==>
                  ex.outcome.msg == BlockNumberMismatch && ex.failures == []
                  && ex.state == st.(blockNumber := st.blockNumber + 1))
  {
  }

  /**
   * In an accepted block, every account's nonce rises by the number of
   * extrinsics it called, so accounts that call nothing keep their nonce.
   */
  lemma BlockNonces(st: State, block: Block, who: AccountId)
    requires block.header.blockNumber == st.blockNumber + 1
    ensures System.NonceIn(BlockExecution(st, block).state.nonces, who)
            == System.NonceIn(st.nonces, who) + CallsBy(block.extrinsics, 0, |block.extrinsics|, who)
  {
    NoncesCountCalls(st.(blockNumber := st.blockNumber + 1), block.extrinsics, 0, |block.extrinsics|, block.header.blockNumber, who);
  }

  /** A block without self-transfers leaves the total of all balances unchanged. */
  lemma BlockConserves(st: State, block: Block)
    requires !HasSelfTransfer(block.extrinsics, 0, |block.extrinsics|)
    ensures Balances.Total(BlockExecution(st, block).state.ledger) == Balances.Total(st.ledger)
  {
    if block.header.blockNumber == st.blockNumber + 1 {
      ApplyConserves(st.(blockNumber := st.blockNumber + 1), block.extrinsics, 0, |block.extrinsics|, block.header.blockNumber);
    }
  }

  // ---------------------------------------------------------------------
  // Scenarios, as clients of the runtime object
  // ---------------------------------------------------------------------

  /**
   * The repository's own example: alice starts with 100 and block 1 carries
   * a transfer of 69 to bob and one of 20 to charlie, both signed by alice.
   */
  method RunExample() returns (r: Outcome, failures: seq<Failure>, alice: Balances.Balance, bob: Balances.Balance,
                               charlie: Balances.Balance, aliceNonce: nat, blockNumber: nat)
    ensures r == Ok && failures == []
    ensures alice == 11 && bob == 69 && charlie == 20
    ensures aliceNonce == 2 && blockNumber == 1
  {
    var rt := new Runtime();
    rt.balances.SetBalance("alice", 100);
    var block := Block(Header(1), [
      Extrinsic("alice", Balances(Balances.Transfer("bob", 69))),
      Extrinsic("alice", Balances(Balances.Transfer("charlie", 20)))
    ]);
    ghost var genesis := rt.Snapshot();
    r, failures := rt.ExecuteBlock(block);
    ghost var exts := block.extrinsics;
    ghost var next := genesis.(blockNumber := 1);
    ghost var afterFirst := ApplyExtrinsic(next, exts[0]);
    assert afterFirst.outcome == Ok;
    assert ApplyRange(next, exts, 0, 1, 1) == Run(afterFirst.state, []);
    assert ApplyExtrinsic(afterFirst.state, exts[1]).outcome == Ok;
    alice := rt.balances.BalanceOf("alice");
    bob := rt.balances.BalanceOf("bob");
    charlie := rt.balances.BalanceOf("charlie");
    aliceNonce := rt.system.Nonce("alice");
    blockNumber := rt.system.BlockNumber();
  }

  /**
   * A transfer from an empty account inside a valid block: the extrinsic is
   * reported as failed, no balance moves, the caller's nonce still rises and
   * the block as a whole succeeds.
   */
  method RunFailingExtrinsic() returns (r: Outcome, failures: seq<Failure>, alice: Balances.Balance,
                                        bob: Balances.Balance, aliceNonce: nat)
    ensures r == Ok && failures == [Failure(1, 0, Balances.NotEnoughFunds)]
    ensures alice == 0 && bob == 0 && aliceNonce == 1
  {
    var rt := new Runtime();
    var block := Block(Header(1), [Extrinsic("alice", Balances(Balances.Transfer("bob", 1)))]);
    ghost var next := rt.Snapshot().(blockNumber := 1);
    r, failures := rt.ExecuteBlock(block);
    assert ApplyRange(next, block.extrinsics, 0, 0, 1) == Run(next, []);
    alice := rt.balances.BalanceOf("alice");
    bob := rt.balances.BalanceOf("bob");
    aliceNonce := rt.system.Nonce("alice");
  }

  /**
   * Two blocks with the expected numbers 1 and 2 both succeed; a third block
   * that reuses number 2 is rejected without touching any balance or nonce,
   * while the block number still advances to 3.
   */
  method RunReusedBlockNumber() returns (first: Outcome, second: Outcome, third: Outcome,
                                         alice: Balances.Balance, bob: Balances.Balance,
                                         aliceNonce: nat, blockNumber: nat)
    ensures first == Ok && second == Ok && third == Err(BlockNumberMismatch)
    ensures alice == 80 && bob == 20 && aliceNonce == 2 && blockNumber == 3
  {
    var rt := new Runtime();
    rt.balances.SetBalance("alice", 100);
    var pay := Extrinsic("alice", Balances(Balances.Transfer("bob", 10)));
    var failures;
    first, failures := rt.ExecuteBlock(Block(Header(1), [pay]));
    second, failures := rt.ExecuteBlock(Block(Header(2), [pay]));
    third, failures := rt.ExecuteBlock(Block(Header(2), [pay]));
    alice := rt.balances.BalanceOf("alice");
    bob := rt.balances.BalanceOf("bob");
    aliceNonce := rt.system.Nonce("alice");
    blockNumber := rt.system.BlockNumber();
  }
}
