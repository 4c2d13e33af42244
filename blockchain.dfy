/** The Giraffe SDK entry point: it keeps a wallet's spendable set in step with the
    ledger's change stream, attests and broadcasts transactions, and drains a stack
    of cleanup actions on shutdown. */
module Blockchain {
  import opened Wrappers
  import opened Collaborators
  import opened Disposal
  import opened Reconciliation
  import opened Attestation

  class Giraffe {
    const client: Client
    const wallet: Wallet
    /** Cleanup actions, most recently registered last. */
    var disposalSteps: seq<DisposalStep>

    constructor (client: Client, wallet: Wallet)
      ensures this.client == client && this.wallet == wallet && disposalSteps == []
    {
      this.client := client;
      this.wallet := wallet;
      disposalSteps := [];
    }

    /** Builds the handle for `client` and `wallet` and runs the background task on
        `changes`; the client is built by the caller. */
    static method Init(client: Client, wallet: Wallet, changes: seq<Ledger>) returns (g: Giraffe)
      modifies client`ledger, client`requests, client`followed, wallet`spendable
      ensures fresh(g) && g.client == client && g.wallet == wallet
      ensures var p := Replay(Replayed(old(wallet.spendable), old(client.requests) + [Request.Follow], Ok(())), changes, wallet.address);
        wallet.spendable == p.spendable && client.requests == p.requests &&
        client.followed == old(client.followed) + 1 &&
        g.disposalSteps == if p.result.Ok? then [CancelChanges(old(client.followed))] else []
    {
      g := new Giraffe(client, wallet);
      var _ := g.Background(changes);
    }

    /** Removes and returns the top step, if any. */
    method PopStep() returns (step: Option<DisposalStep>)
      modifies this`disposalSteps
      ensures old(disposalSteps) == [] ==> step == None && disposalSteps == []
      ensures old(disposalSteps) != [] ==>
        step == Some(old(disposalSteps)[|old(disposalSteps)| - 1]) &&
        disposalSteps == old(disposalSteps)[..|old(disposalSteps)| - 1]
    {
      if disposalSteps == [] {
        step := None;
      } else {
        step := Some(disposalSteps[|disposalSteps| - 1]);
        disposalSteps := disposalSteps[..|disposalSteps| - 1];
      }
    }

    /** Pops and runs steps until the stack is empty; a failing step stops the
        drain with its error. `run` gives each step's outcome; `ran` lists the steps
        run, in order. */
    method Dispose(run: DisposalStep -> Result<(), Error>) returns (ran: seq<DisposalStep>, r: Result<(), Error>)
      modifies this`disposalSteps
      ensures Drain(old(disposalSteps), run) == Drained(ran, disposalSteps, r)
      ensures r.Ok? ==> disposalSteps == [] && ran == Reversed(old(disposalSteps))
      ensures old(disposalSteps) == [] ==> ran == [] && r == Ok(()) && disposalSteps == []
    {
      ghost var stack := disposalSteps;
      if Drain(stack, run).result.Ok? {
        DrainSucceeded(stack, run);
      }
      ran := [];
      var step := PopStep();
      if step.Some? {
        assert disposalSteps + [step.value] == stack;
      }
      while step.Some?
        invariant step.Some? ==>
          var rest := Drain(disposalSteps + [step.value], run);
          Drain(stack, run) == Drained(ran + rest.ran, rest.remaining, rest.result)
        invariant step.None? ==> disposalSteps == [] && Drain(stack, run) == Drained(ran, [], Ok(()))
        decreases |disposalSteps| + if step.Some? then 1 else 0
      {
        var top := step.value;
        var below := disposalSteps;
        DrainPushed(below, top, run);
        var outcome := run(top);
        ghost var before := ran;
        ran := ran + [top];
        if outcome.Err? {
          r := Err(outcome.error);
          return;
        }
        assert Drain(stack, run) == Drained(ran + Drain(below, run).ran, Drain(below, run).remaining, Drain(below, run).result) by {
          assert before + ([top] + Drain(below, run).ran) == ran + Drain(below, run).ran;
        }
        step := PopStep();
        if step.Some? {
          assert disposalSteps + [step.value] == below;
        } else {
          assert below == [];
          assert ran + [] == ran;
        }
      }
      r := Ok(());
    }

    /** One loop iteration of the background task: query the references locked to
        the wallet's address, fetch every output, and replace the spendable set
        with the pairs, only if every call succeeded. */
    method ReconcileStep() returns (r: Result<(), Error>)
      modifies client`requests, wallet`spendable
      ensures match Reconciled(client.ledger, wallet.address)
        case Ok(utxos) => r == Ok(()) && wallet.spendable == utxos
        case Err(e) => r == Err(e) && wallet.spendable == old(wallet.spendable)
      ensures client.requests == old(client.requests) + ReconcileRequests(client.ledger, wallet.address)
    {
      var references := client.LockAddressState(wallet.address);
      if references.Err? {
        return Err(references.error);
      }
      var refs := references.value;
      var utxos: seq<Utxo> := [];
      var failure: Option<Error> := None;
      for i := 0 to |refs|
        invariant client.requests == old(client.requests) + [GetLockAddressState(wallet.address)] + OutputRequests(refs[..i])
        invariant failure.None? ==> Fetched(refs[..i], client.ledger.transactionOutput) == Ok(utxos)
        invariant failure.Some? ==> Fetched(refs[..i], client.ledger.transactionOutput) == Err(failure.value)
        invariant wallet.spendable == old(wallet.spendable)
      {
        assert refs[..i + 1][..i] == refs[..i];
        var output := client.TransactionOutput(refs[i]);
        if failure.None? {
          match output
          case Ok(o) => utxos := utxos + [(refs[i], o)];
          case Err(e) => failure := Some(e);
        }
      }
      assert refs[..|refs|] == refs;
      if failure.Some? {
        return Err(failure.value);
      }
      wallet.UpdateSpendableOutputs(utxos);
      r := Ok(());
    }

    /** Handles one notification, during which the ledger answers as `now`. */
    method Notified(now: Ledger) returns (r: Result<(), Error>)
      modifies client`ledger, client`requests, wallet`spendable
      ensures var one := ReconcileOnce(old(wallet.spendable), now, wallet.address);
        wallet.spendable == one.spendable && r == one.result &&
        client.requests == old(client.requests) + one.requests
    {
      client.ledger := now;
      r := ReconcileStep();
    }

    /** The background task: follow the change stream and reconcile once per
        notification; element i of `changes` is the ledger as it answers while
        notification i is handled. A failed reconciliation ends the task with its
        error; when the stream ends, its cancellation is registered for disposal. */
    method Background(changes: seq<Ledger>) returns (r: Result<(), Error>)
      modifies client`ledger, client`requests, client`followed, wallet`spendable, this`disposalSteps
      ensures var p := Replay(Replayed(old(wallet.spendable), old(client.requests) + [Request.Follow], Ok(())), changes, wallet.address);
        wallet.spendable == p.spendable && client.requests == p.requests && r == p.result
      ensures client.followed == old(client.followed) + 1
      ensures r.Ok? ==> disposalSteps == old(disposalSteps) + [CancelChanges(old(client.followed))]
      ensures r.Err? ==> disposalSteps == old(disposalSteps)
    {
      ghost var address := wallet.address;
      var stream := client.Follow();
      ghost var start := Replayed(wallet.spendable, client.requests, Ok(()));
      ghost var done := start;
      r := Ok(());
      var i := 0;
      while i < |changes| && r.Ok?
        invariant 0 <= i <= |changes|
        invariant done == Replay(start, changes[..i], address) && r == done.result
        invariant wallet.spendable == done.spendable && client.requests == done.requests
        invariant client.followed == old(client.followed) + 1 && stream == old(client.followed)
        invariant disposalSteps == old(disposalSteps)
      {
        assert changes[..i + 1] == changes[..i] + [changes[i]];
        ReplayAppend(start, changes[..i], changes[i], address);
        r := Notified(changes[i]);
        done := Handle(done, changes[i], address);
        i := i + 1;
      }
      if r.Ok? {
        assert changes[..i] == changes;
        disposalSteps := disposalSteps + [CancelChanges(stream)];
      } else {
        ReplayAfterFailure(start, changes, i, address);
      }
    }

    /** Attests `transaction` at the height after the canonical head: the signer's
        witness for that height and the transaction's signable bytes is appended
        to its attestation list, and the same object is returned. On any error the
        list is unchanged. */
    method Attest(transaction: Transaction, signableBytes: TransactionValue -> seq<byte>) returns (r: Result<Transaction, Error>)
      modifies transaction`attestation, client`requests
      ensures client.requests == old(client.requests) + AttestRequests(client.ledger)
      ensures match Witnessed(client.ledger, wallet.signer, signableBytes, old(transaction.Value()))
        case Ok(w) => r == Ok(transaction) && transaction.attestation == old(transaction.attestation) + [w]
        case Err(e) => r == Err(e) && transaction.attestation == old(transaction.attestation)
    {
      var headId := client.CanonicalHeadId();
      if headId.Err? {
        return Err(headId.error);
      }
      var head := client.Header(headId.value);
      if head.Err? {
        return Err(head.error);
      }
      var context := WitnessContext(head.value.height + 1, signableBytes(transaction.Value()));
      var signed := wallet.signer(context);
      if signed.Err? {
        return Err(signed.error);
      }
      transaction.attestation := transaction.attestation + [signed.value];
      r := Ok(transaction);
    }

    /** Attests `transaction` and, only if that succeeded, broadcasts exactly the
        attested transaction; either stage's error is returned unchanged. */
    method AttestAndBroadcast(transaction: Transaction, signableBytes: TransactionValue -> seq<byte>) returns (r: Result<(), Error>)
      modifies transaction`attestation, client`requests
      ensures match Witnessed(client.ledger, wallet.signer, signableBytes, old(transaction.Value()))
        case Ok(w) =>
          transaction.attestation == old(transaction.attestation) + [w] &&
          r == client.ledger.broadcast(transaction.Value()) &&
          client.requests == old(client.requests) + AttestRequests(client.ledger) + [BroadcastTransaction(transaction.Value())]
        case Err(e) =>
          r == Err(e) && transaction.attestation == old(transaction.attestation) &&
          client.requests == old(client.requests) + AttestRequests(client.ledger)
    {
      var attested := Attest(transaction, signableBytes);
      if attested.Err? {
        return Err(attested.error);
      }
      r := client.Broadcast(attested.value.Value());
    }
  }
}
