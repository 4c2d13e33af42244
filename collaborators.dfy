/** The collaborators the Giraffe SDK core is glue around: the remote ledger as the
    RPC client sees it, the wallet, and the records they exchange. Their internals
    are not part of this model; each is reduced to what the core can observe. */
module Collaborators {
  import opened Wrappers

  newtype byte = x: int | 0 <= x < 256

  /** Opaque identifier of the wallet's locking condition. */
  datatype Address = Address(id: seq<byte>)

  /** Points at one output of one transaction; compared by value. */
  datatype OutputRef = OutputRef(transactionId: seq<byte>, index: nat)

  /** The value and lock of an output, as fetched. */
  datatype TransactionOutput = TransactionOutput(quantity: nat, lockAddress: Address)

  /** One entry of the wallet's spendable set. */
  type Utxo = (OutputRef, TransactionOutput)

  datatype BlockId = BlockId(bytes: seq<byte>)

  /** Only the height of a header matters to the core. */
  datatype BlockHeader = BlockHeader(height: nat)

  datatype Witness = Witness(proof: seq<byte>)

  /** What the signer is asked to sign: the height the transaction is attested at
      and the transaction's signable bytes. */
  datatype WitnessContext = WitnessContext(height: nat, messageToSign: seq<byte>)

  /** Everything of a transaction except its attestation list. */
  datatype TransactionBody = TransactionBody(inputs: seq<OutputRef>, outputs: seq<TransactionOutput>)

  /** A transaction as a value, as the codec and the broadcast call see it. */
  datatype TransactionValue = TransactionValue(body: TransactionBody, attestation: seq<Witness>)

  datatype Error =
    | TransportError(reason: string)
    | SigningError(reason: string)
    | BroadcastRejection(reason: string)

  /** How the remote ledger answers each chain-access call at one moment. Any
      answer may be an error. */
  datatype Ledger = Ledger(
    lockAddressState: Address -> Result<seq<OutputRef>, Error>,
    transactionOutput: OutputRef -> Result<TransactionOutput, Error>,
    canonicalHeadId: Result<BlockId, Error>,
    header: BlockId -> Result<BlockHeader, Error>,
    broadcast: TransactionValue -> Result<(), Error>)

  /** One call made through the client, as the remote receives it. */
  datatype Request =
    | Follow
    | GetLockAddressState(address: Address)
    | GetTransactionOutput(ref: OutputRef)
    | GetCanonicalHeadId
    | GetHeader(id: BlockId)
    | BroadcastTransaction(tx: TransactionValue)

  /** The RPC client: answers come from `ledger`, the remote's current state, and
      every call is appended to `requests`. */
  class Client {
    var ledger: Ledger
    var requests: seq<Request>
    /** How many change streams have been opened by `Follow`. */
    var followed: nat

    constructor (ledger: Ledger)
      ensures this.ledger == ledger && requests == [] && followed == 0
    {
      this.ledger := ledger;
      requests := [];
      followed := 0;
    }

    /** Opens a change stream and returns its handle. */
    method Follow() returns (stream: nat)
      modifies this`requests, this`followed
      ensures stream == old(followed) && followed == old(followed) + 1
      ensures requests == old(requests) + [Request.Follow]
    {
      stream := followed;
      followed := followed + 1;
      requests := requests + [Request.Follow];
    }

    method LockAddressState(address: Address) returns (r: Result<seq<OutputRef>, Error>)
      modifies this`requests
      ensures r == ledger.lockAddressState(address)
      ensures requests == old(requests) + [GetLockAddressState(address)]
    {
      r := ledger.lockAddressState(address);
      requests := requests + [GetLockAddressState(address)];
    }

    method TransactionOutput(ref: OutputRef) returns (r: Result<TransactionOutput, Error>)
      modifies this`requests
      ensures r == ledger.transactionOutput(ref)
      ensures requests == old(requests) + [GetTransactionOutput(ref)]
    {
      r := ledger.transactionOutput(ref);
      requests := requests + [GetTransactionOutput(ref)];
    }

    method CanonicalHeadId() returns (r: Result<BlockId, Error>)
      modifies this`requests
      ensures r == ledger.canonicalHeadId
      ensures requests == old(requests) + [GetCanonicalHeadId]
    {
      r := ledger.canonicalHeadId;
      requests := requests + [GetCanonicalHeadId];
    }

    method Header(id: BlockId) returns (r: Result<BlockHeader, Error>)
      modifies this`requests
      ensures r == ledger.header(id)
      ensures requests == old(requests) + [GetHeader(id)]
    {
      r := ledger.header(id);
      requests := requests + [GetHeader(id)];
    }

    method Broadcast(tx: TransactionValue) returns (r: Result<(), Error>)
      modifies this`requests
      ensures r == ledger.broadcast(tx)
      ensures requests == old(requests) + [BroadcastTransaction(tx)]
    {
      r := ledger.broadcast(tx);
      requests := requests + [BroadcastTransaction(tx)];
    }
  }

  /** The wallet: a fixed address, a signing capability and the spendable set that
      the core replaces on each reconciliation. */
  class Wallet {
    const address: Address
    const signer: WitnessContext -> Result<Witness, Error>
    var spendable: seq<Utxo>

    constructor (address: Address, signer: WitnessContext -> Result<Witness, Error>)
      ensures this.address == address && this.signer == signer && spendable == []
    {
      this.address := address;
      this.signer := signer;
      spendable := [];
    }

    /** Replaces the whole spendable set; nothing of the previous one is kept. */
    method UpdateSpendableOutputs(utxos: seq<Utxo>)
      modifies this`spendable
      ensures spendable == utxos
    {
      spendable := utxos;
    }
  }

  /** A transaction object whose attestation list is extended in place. */
  class Transaction {
    var body: TransactionBody
    var attestation: seq<Witness>

    constructor (body: TransactionBody, attestation: seq<Witness>)
      ensures this.body == body && this.attestation == attestation
    {
      this.body := body;
      this.attestation := attestation;
    }

    /** The transaction's current contents, as a value. */
    function Value(): TransactionValue
      reads this
    {
      TransactionValue(body, attestation)
    }
  }
}
