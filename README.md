# Giraffe SDK core: disposal, reconciliation and attestation

A Dafny model of the `Giraffe` class of the Giraffe blockchain's TypeScript SDK
(`typescript/sdk/lib/blockchain.ts`). The class is glue around an RPC client, a
wallet and a transaction codec. It has three pieces of stateful logic, and this
project models and proves each of them:

- **Disposal stack.** `disposalSteps` holds cleanup actions. `dispose` pops and
  runs them until the stack is empty, so the most recently registered step runs
  first. A failing step stops the drain, and the steps below it stay registered.
- **Reconciliation.** For each notification of the change stream, `background`
  asks for the references locked to the wallet's address and fetches every
  output. If every call succeeds, it replaces the wallet's spendable set with the
  `(reference, output)` pairs, in order. When the stream ends, it registers the
  stream's cancellation as a disposal step.
- **Attestation.** `attest` reads the canonical head, builds a witness context at
  head height + 1 over the transaction's signable bytes, and appends the signer's
  witness to the transaction's attestation list. `attestAndBroadcast` then
  broadcasts the attested transaction.

Files and modules:

- `wrappers.dfy` (`Wrappers`): `Option` and `Result`.
- `collaborators.dfy` (`Collaborators`): the records and the collaborators.
  - `Ledger` is a record of total functions. It gives each chain-access call's
    answer, possibly an error, at one moment.
  - `Client` answers from its `ledger` field and appends every call to
    `requests`. This makes "no output is fetched" and "broadcast only after a
    successful attest" statable.
  - `Wallet` holds the address, the signer and the spendable set.
  - `Transaction` holds a body and the attestation list that `attest` extends.
- `disposal.dfy` (`Disposal`): `Drain` is the specification of `dispose`, with
  lemmas about LIFO order, failure and idempotence.
- `reconciliation.dfy` (`Reconciliation`): `Fetched`, `Reconciled` and `Replay`
  specify one reconciliation and the notification loop, with lemmas about them.
- `attestation.dfy` (`Attestation`): `Witnessed` and `Attested` specify one
  attest call, with lemmas about repeated attestation.
- `blockchain.dfy` (`Blockchain`): the `Giraffe` class. Its methods are proved
  against those specifications.

Collaborators that are not shown become parameters:

- The change stream is a finite `seq<Ledger>`. Element i is the ledger as it
  answers while notification i is handled. The notification's own content is
  unused by the code.
- `transactionSignableBytes` is a parameter `signableBytes: TransactionValue -> seq<byte>`.
- Each disposal step's outcome is a parameter `run: DisposalStep -> Result<(), Error>`.
- The signer is the wallet's `signer` function field.

### Where the code and the design text differ (the model follows the code)

- The cancellation step `() => changes.return({}).then(() => { })` does not
  catch anything. A failing cancellation therefore rejects `dispose` like any
  other step. The design text describes it as best-effort.
- If a reconciliation fails, the `for await` body throws and `background`
  rejects. No later notification is handled, and the cancellation step is not
  registered. The spendable set keeps its value from before the failed
  reconciliation.

## Model

| member | source | states |
|---|---|---|
| Blockchain.Giraffe.constructor | typescript/sdk/lib/blockchain.ts:9-14 | the handle keeps the given client and wallet and starts with an empty disposal stack |
| Blockchain.Giraffe.Init | typescript/sdk/lib/blockchain.ts:16-22 | a fresh handle over the given client and wallet, with the background task's effect on the spendable set, the client's calls and the disposal stack (one cancellation step if the stream was consumed without failure) |
| Blockchain.Giraffe.PopStep | typescript/sdk/lib/blockchain.ts:25 | `pop`: an empty stack yields nothing and stays empty; otherwise the top step is removed and returned and the rest is unchanged |
| Blockchain.Giraffe.Dispose | typescript/sdk/lib/blockchain.ts:24-30 | the steps run, the stack left and the outcome are those of `Drain` on the old stack; on success the stack is empty and the steps ran in reverse registration order; an empty stack runs nothing and stays empty |
| Disposal.Reversed | typescript/sdk/lib/blockchain.ts:25-28 | element i of the reversal is element n-1-i of the input, so it gives the pop order of a stack |
| Disposal.DrainShape | typescript/sdk/lib/blockchain.ts:24-30 | the k-th step run is the k-th from the top; what is left is the bottom of the stack in its original order; every step before the last one run succeeded; success means every step ran; a failure is the error of the last step run |
| Disposal.DrainSucceeded | typescript/sdk/lib/blockchain.ts:24-30 | a successful drain ran exactly the reversed stack and left it empty |
| Disposal.DrainIdempotent | typescript/sdk/lib/blockchain.ts:25-26 | after a successful drain, draining again runs nothing and succeeds |
| Disposal.DrainFailedAt | typescript/sdk/lib/blockchain.ts:25-28 | if the k-th popped step fails and the ones above it succeed, the drain ran exactly the top k+1 steps and fails with that step's error, and the steps below stay in their original order |
| Disposal.DrainPushed | typescript/sdk/lib/blockchain.ts:25-28 | the step registered last runs first; if it fails nothing else runs, otherwise the rest of the stack is drained |
| Disposal.CancellationRunsFirst | typescript/sdk/lib/blockchain.ts:40 | the cancellation registered when the stream ends is the first step a later drain runs; a successful drain then runs the older steps from the top down |
| Collaborators.Client.Follow | typescript/sdk/lib/blockchain.ts:33 | opening the change stream returns a new stream handle and records one `follow` call |
| Collaborators.Client.LockAddressState | typescript/sdk/lib/blockchain.ts:35 | returns the ledger's answer for the address and records the call |
| Collaborators.Client.TransactionOutput | typescript/sdk/lib/blockchain.ts:36 | returns the ledger's answer for the reference and records the call |
| Collaborators.Client.CanonicalHeadId | typescript/sdk/lib/blockchain.ts:44 | returns the ledger's head id answer and records the call |
| Collaborators.Client.Header | typescript/sdk/lib/blockchain.ts:45 | returns the ledger's header answer for the id and records the call |
| Collaborators.Client.Broadcast | typescript/sdk/lib/blockchain.ts:54 | returns the ledger's verdict on the transaction and records the transaction that was broadcast |
| Collaborators.Wallet.UpdateSpendableOutputs | typescript/sdk/lib/blockchain.ts:37 | the spendable set becomes exactly the given pairs; nothing of the previous set is kept |
| Reconciliation.FetchedShape | typescript/sdk/lib/blockchain.ts:36 | the fan-out succeeds exactly when every fetch succeeds; it then has one entry per reference, and entry i is (references[i], its output); otherwise it fails with the error of one of the fetches |
| Reconciliation.ReconciledEntries | typescript/sdk/lib/blockchain.ts:35-36 | a successful reconciliation yields one pair per locked reference, in order; a failure carries the error of the lock query or of one output fetch |
| Reconciliation.NothingLocked | typescript/sdk/lib/blockchain.ts:35-37 | with no locked references the set becomes empty and the only call is the lock query, so no output is fetched |
| Reconciliation.ReplayAppend | typescript/sdk/lib/blockchain.ts:34-38 | handling one more notification extends the loop by exactly one reconciliation, after all the earlier ones |
| Reconciliation.ReplayAfterFailure | typescript/sdk/lib/blockchain.ts:34-38 | once a reconciliation has failed, later notifications change neither the set nor the calls made |
| Reconciliation.ReplayLastWins | typescript/sdk/lib/blockchain.ts:34-38 | after a loop without failure, the set is exactly what the last notification's reconciliation computed; earlier sets are replaced, not merged |
| Reconciliation.ReplaySnapshot | typescript/sdk/lib/blockchain.ts:34-38 | the set is always the starting set or the complete result of one successful reconciliation, never a partial or merged one |
| Reconciliation.ReplayStopsAtFailure | typescript/sdk/lib/blockchain.ts:34-38 | a failed loop failed at a notification k whose predecessors all succeeded; it carries k's error and leaves the set computed before k |
| Blockchain.Giraffe.ReconcileStep | typescript/sdk/lib/blockchain.ts:35-37 | on success the spendable set is the reconciled pairs; on any failed call it is unchanged and the error is returned; the client's calls are the lock query, then every output fetch |
| Blockchain.Giraffe.Notified | typescript/sdk/lib/blockchain.ts:34-37 | handling one notification against the ledger at that moment performs exactly one reconciliation step |
| Blockchain.Giraffe.Background | typescript/sdk/lib/blockchain.ts:32-41 | the spendable set, the client's calls and the outcome are those of `Replay` over the notifications; exactly one cancellation step for this stream is pushed on top of the disposal stack when the stream ends without failure, and none otherwise |
| Attestation.WitnessedContext | typescript/sdk/lib/blockchain.ts:44-47 | attest succeeds exactly when the head id, the header and the signer succeed; the witness is what the signer returns for (head height + 1, signable bytes of the transaction before the push) |
| Attestation.AttestSeries | typescript/sdk/lib/blockchain.ts:43-50 | any series of attest calls keeps the body, never removes or changes an earlier witness, and adds at most one witness per call |
| Attestation.AttestSeriesCount | typescript/sdk/lib/blockchain.ts:48 | no deduplication: when every call sees a head and the signer signs, each call adds one witness |
| Attestation.AttestTwice | typescript/sdk/lib/blockchain.ts:43-50 | two attest calls append two witnesses, each signed over its own call's head height + 1 and the transaction as it was at that call; with an advancing head the two heights differ |
| Attestation.AttestRepeatsWitness | typescript/sdk/lib/blockchain.ts:46-48 | with an unchanged head and a codec that ignores witnesses, a second attest appends the same witness again |
| Blockchain.Giraffe.Attest | typescript/sdk/lib/blockchain.ts:43-50 | on success the same transaction object is returned with exactly one witness appended, `Witnessed` of its old contents; on any error the attestation list is unchanged and the error is returned; the client's calls are the head id, then its header |
| Blockchain.Giraffe.AttestAndBroadcast | typescript/sdk/lib/blockchain.ts:52-55 | if attest succeeds, exactly the attested transaction is broadcast and the broadcast's verdict is returned; if attest fails, nothing is broadcast and its error is returned |

## Left out

- Construction of `RpcGiraffeClient` in `init` and every real RPC call: network I/O over a client that is not part of this model. `Init` takes the client as a parameter, and each call answers from a `Ledger` value.
- `init` does not await `background`, which goes on running after `init` returns, and its rejection is never handled. `Init` runs the background task to completion before returning.
- Async iteration of `follow()` and the semantics of `changes.return`: these are stream and concurrency primitives. The stream is a finite sequence. Cancellation is an opaque step whose outcome is a parameter.
- The `Promise.all` fan-out is modelled as an ordered sequential loop that issues every fetch. The real rejection is the first fetch to fail in time. The model keeps the failure with the lowest index, and `FetchedShape` only promises the error of some failed fetch.
- The time between calls: inside one reconciliation and one `attest`, every call answers from the same `Ledger`. The head id and the header are therefore read from one consistent state. Between notifications, `Notified` sets the client's ledger to the state of that notification.
- Blockchain.Giraffe.Background: does not state the client's final `ledger` field. That field stands for the remote's state, which the notifications supply.
- `transactionSignableBytes`, the wallet's signer and the protobuf records are foreign code. They are uninterpreted functions and opaque records. The codec sees the whole transaction value, including existing witnesses, because the codec is not part of this model.
- `head.height.add(1)` on a `Long`: heights are unbounded `nat`, so 64-bit overflow is not modelled.
- The wallet's internal storage of the spendable set is not shown. The model keeps the pairs exactly as they are passed to `updateSpendableOutputs`.
