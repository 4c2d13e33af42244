/** One reconciliation of the wallet's spendable set against the remote ledger, and
    the sequence of reconciliations the background task performs, one per change
    notification. */
module Reconciliation {
  import opened Wrappers
  import opened Collaborators

  /** The pairs the fan-out of output fetches yields for `refs`, in the order of
      `refs`; it fails if any fetch fails. */
  function Fetched(refs: seq<OutputRef>, fetch: OutputRef -> Result<TransactionOutput, Error>): Result<seq<Utxo>, Error>
    decreases |refs|
  {
    if refs == [] then Ok([])
    else
      match Fetched(refs[..|refs| - 1], fetch)
      case Err(e) => Err(e)
      case Ok(pairs) =>
        var last := refs[|refs| - 1];
        match fetch(last)
        case Err(e) => Err(e)
        case Ok(output) => Ok(pairs + [(last, output)])
  }

  /** The fan-out succeeds exactly when every fetch does; it then pairs entry i
      with reference i and its output, and otherwise fails with the error of one of
      the fetches. */
  lemma {:induction false} FetchedShape(refs: seq<OutputRef>, fetch: OutputRef -> Result<TransactionOutput, Error>)
    ensures var r := Fetched(refs, fetch);
      (r.Ok? <==> forall i :: 0 <= i < |refs| ==> fetch(refs[i]).Ok?) &&
      (r.Ok? ==> |r.value| == |refs| &&
                 forall i :: 0 <= i < |refs| ==> r.value[i] == (refs[i], fetch(refs[i]).value)) &&
      (r.Err? ==> exists i :: 0 <= i < |refs| && fetch(refs[i]) == Err(r.error))
    decreases |refs|
  {
    if refs != [] {
      var earlier := refs[..|refs| - 1];
      assert forall i :: 0 <= i < |earlier| ==> earlier[i] == refs[i];
      FetchedShape(earlier, fetch);
    }
  }

  /** The output requests the fan-out issues: one per reference, all of them,
      whichever fail. */
  function OutputRequests(refs: seq<OutputRef>): seq<Request>
  {
    if refs == [] then [] else OutputRequests(refs[..|refs| - 1]) + [GetTransactionOutput(refs[|refs| - 1])]
  }

  /** The spendable set one reconciliation computes from the ledger's answers. */
  function Reconciled(ledger: Ledger, address: Address): Result<seq<Utxo>, Error>
  {
    match ledger.lockAddressState(address)
    case Err(e) => Err(e)
    case Ok(refs) => Fetched(refs, ledger.transactionOutput)
  }

  /** The calls one reconciliation makes: the lock-state query, then one output
      fetch per reference if the query succeeded. */
  function ReconcileRequests(ledger: Ledger, address: Address): seq<Request>
  {
    [GetLockAddressState(address)] +
    match ledger.lockAddressState(address)
    case Err(_) => []
    case Ok(refs) => OutputRequests(refs)
  }

  /** A reconciliation that succeeds yields exactly one entry per locked reference,
      in order; it fails exactly when the query or some fetch fails, with that
      call's error. */
  lemma ReconciledEntries(ledger: Ledger, address: Address)
    ensures var refs := ledger.lockAddressState(address);
      match Reconciled(ledger, address)
      case Ok(utxos) =>
        refs.Ok? && |utxos| == |refs.value| &&
        forall i :: 0 <= i < |utxos| ==>
          ledger.transactionOutput(refs.value[i]).Ok? &&
          utxos[i] == (refs.value[i], ledger.transactionOutput(refs.value[i]).value)
      case Err(e) =>
        refs == Err(e) ||
        (refs.Ok? && exists i :: 0 <= i < |refs.value| && ledger.transactionOutput(refs.value[i]) == Err(e))
  {
    if ledger.lockAddressState(address).Ok? {
      FetchedShape(ledger.lockAddressState(address).value, ledger.transactionOutput);
    }
  }

  /** No locked references: the spendable set becomes empty and no output is
      fetched. */
  lemma NothingLocked(ledger: Ledger, address: Address)
    requires ledger.lockAddressState(address) == Ok([])
    ensures Reconciled(ledger, address) == Ok([])
    ensures ReconcileRequests(ledger, address) == [GetLockAddressState(address)]
  {
  }

  /** State of the background task after some notifications: the wallet's
      spendable set, the calls made, and whether the task is still running. */
  datatype Replayed = Replayed(spendable: seq<Utxo>, requests: seq<Request>, result: Result<(), Error>)

  /** Reconciles once per notification, in order, starting from `start`; element
      i of `changes` is the ledger as it answers while notification i is handled.
      The first failing reconciliation ends the task and leaves the set as it was. */
  function Replay(start: Replayed, changes: seq<Ledger>, address: Address): Replayed
    decreases |changes|
  {
    if changes == [] then start
    else Handle(Replay(start, changes[..|changes| - 1], address), changes[|changes| - 1], address)
  }

  /** One reconciliation from `spendable` against `now`: the new set (or the old
      one on failure), the calls made, and the outcome. */
  function ReconcileOnce(spendable: seq<Utxo>, now: Ledger, address: Address): Replayed
  {
    match Reconciled(now, address)
    case Err(e) => Replayed(spendable, ReconcileRequests(now, address), Err(e))
    case Ok(utxos) => Replayed(utxos, ReconcileRequests(now, address), Ok(()))
  }

  /** Handling one more notification, answered by `now`, after `before`; nothing is
      done once the task has ended. */
  function Handle(before: Replayed, now: Ledger, address: Address): Replayed
  {
    if before.result.Err? then before
    else
      var one := ReconcileOnce(before.spendable, now, address);
      Replayed(one.spendable, before.requests + one.requests, one.result)
  }

  /** Replaying one notification more is handling it after the others. */
  lemma ReplayAppend(start: Replayed, changes: seq<Ledger>, now: Ledger, address: Address)
    ensures Replay(start, changes + [now], address) == Handle(Replay(start, changes, address), now, address)
  {
    assert (changes + [now])[..|changes|] == changes;
  }

  /** Once a reconciliation has failed, later notifications change nothing: the
      task has ended. */
  lemma {:induction false} ReplayAfterFailure(start: Replayed, changes: seq<Ledger>, k: nat, address: Address)
    requires k <= |changes|
    requires Replay(start, changes[..k], address).result.Err?
    ensures Replay(start, changes, address) == Replay(start, changes[..k], address)
    decreases |changes|
  {
    if k < |changes| {
      var earlier := changes[..|changes| - 1];
      assert earlier[..k] == changes[..k];
      ReplayAfterFailure(start, earlier, k, address);
    } else {
      assert changes[..k] == changes;
    }
  }

  /** Last write wins: after a run with no failure, the set is exactly what the last
      notification's reconciliation computed; nothing of earlier sets is merged in. */
  lemma ReplayLastWins(start: Replayed, changes: seq<Ledger>, address: Address)
    requires changes != []
    requires Replay(start, changes, address).result.Ok?
    ensures Reconciled(changes[|changes| - 1], address) == Ok(Replay(start, changes, address).spendable)
  {
  }

  /** The set never holds a partial or merged result: it is the starting set or the
      complete result of one successful reconciliation. */
  lemma {:induction false} ReplaySnapshot(start: Replayed, changes: seq<Ledger>, address: Address)
    ensures var p := Replay(start, changes, address);
      p.spendable == start.spendable ||
      exists i :: 0 <= i < |changes| && Reconciled(changes[i], address) == Ok(p.spendable)
  {
    if changes != [] {
      var earlier := changes[..|changes| - 1];
      ReplaySnapshot(start, earlier, address);
      var q := Replay(start, earlier, address);
      if q.spendable != start.spendable {
        var i :| 0 <= i < |earlier| && Reconciled(earlier[i], address) == Ok(q.spendable);
        assert changes[i] == earlier[i];
      }
    }
  }

  /** A failure is the first failing reconciliation: every notification before it
      was reconciled, and the set is left as the one before it computed. */
  lemma {:induction false} ReplayStopsAtFailure(start: Replayed, changes: seq<Ledger>, address: Address)
    requires start.result.Ok?
    requires Replay(start, changes, address).result.Err?
    ensures var p := Replay(start, changes, address);
      exists k :: 0 <= k < |changes| &&
        Replay(start, changes[..k], address).result.Ok? &&
        Reconciled(changes[k], address) == Err(p.result.error) &&
        p.spendable == Replay(start, changes[..k], address).spendable
  {
    var n := |changes|;
    var earlier := changes[..n - 1];
    var p := Replay(start, changes, address);
    var q := Replay(start, earlier, address);
    assert changes[..n - 1] == earlier;
    if q.result.Err? {
      ReplayStopsAtFailure(start, earlier, address);
      var k :| 0 <= k < |earlier| &&
        Replay(start, earlier[..k], address).result.Ok? &&
        Reconciled(earlier[k], address) == Err(q.result.error) &&
        q.spendable == Replay(start, earlier[..k], address).spendable;
      assert earlier[..k] == changes[..k];
      assert earlier[k] == changes[k];
    } else {
      assert Reconciled(changes[n - 1], address) == Err(p.result.error);
    }
  }
}
