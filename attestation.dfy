/** Attestation: binding a transaction to the height after the canonical head and
    to a witness the wallet's signer produces for it. */
module Attestation {
  import opened Wrappers
  import opened Collaborators

  /** The head height the ledger reports, through the head id and then its header. */
  function HeadHeight(ledger: Ledger): (r: Result<nat, Error>)
  {
    match ledger.canonicalHeadId
    case Err(e) => Err(e)
    case Ok(id) =>
      match ledger.header(id)
      case Err(e) => Err(e)
      case Ok(header) => Ok(header.height)
  }

  /** The context attest hands to the signer for transaction `tx`. */
  function Context(ledger: Ledger, signableBytes: TransactionValue -> seq<byte>, tx: TransactionValue): Result<WitnessContext, Error>
  {
    match HeadHeight(ledger)
    case Err(e) => Err(e)
    case Ok(height) => Ok(WitnessContext(height + 1, signableBytes(tx)))
  }

  /** The witness attest appends to `tx`, or the error that stops it. */
  function Witnessed(ledger: Ledger, signer: WitnessContext -> Result<Witness, Error>,
                     signableBytes: TransactionValue -> seq<byte>, tx: TransactionValue): Result<Witness, Error>
  {
    match Context(ledger, signableBytes, tx)
    case Err(e) => Err(e)
    case Ok(context) => signer(context)
  }

  /** The client calls attest makes: the head id, then its header if that succeeded. */
  function AttestRequests(ledger: Ledger): seq<Request>
  {
    [GetCanonicalHeadId] +
    match ledger.canonicalHeadId
    case Err(_) => []
    case Ok(id) => [GetHeader(id)]
  }

  /** `tx` after one attest against `ledger`: one witness more, or unchanged on error. */
  function Attested(ledger: Ledger, signer: WitnessContext -> Result<Witness, Error>,
                    signableBytes: TransactionValue -> seq<byte>, tx: TransactionValue): TransactionValue
  {
    match Witnessed(ledger, signer, signableBytes, tx)
    case Err(_) => tx
    case Ok(w) => TransactionValue(tx.body, tx.attestation + [w])
  }

  /** The witness is exactly what the signer returns for the context at head height
      plus one over the bytes of the transaction before the witness is added, and
      the call fails exactly when the head id, the header or the signer fails. */
  lemma WitnessedContext(ledger: Ledger, signer: WitnessContext -> Result<Witness, Error>,
                         signableBytes: TransactionValue -> seq<byte>, tx: TransactionValue)
    ensures Witnessed(ledger, signer, signableBytes, tx).Ok? <==>
      ledger.canonicalHeadId.Ok? && ledger.header(ledger.canonicalHeadId.value).Ok? &&
      signer(WitnessContext(ledger.header(ledger.canonicalHeadId.value).value.height + 1, signableBytes(tx))).Ok?
    ensures Witnessed(ledger, signer, signableBytes, tx).Ok? ==>
      Witnessed(ledger, signer, signableBytes, tx) ==
        signer(WitnessContext(ledger.header(ledger.canonicalHeadId.value).value.height + 1, signableBytes(tx)))
  {
  }

  /** Each attest in a series sees the ledger as it is at that call; `Attested` is
      applied once per call, in order. */
  function AttestSeries(ledgers: seq<Ledger>, signer: WitnessContext -> Result<Witness, Error>,
                        signableBytes: TransactionValue -> seq<byte>, tx: TransactionValue): (r: TransactionValue)
    // the rest of the transaction is untouched and no witness is ever removed or changed
    ensures r.body == tx.body
    ensures |tx.attestation| <= |r.attestation| <= |tx.attestation| + |ledgers|
    ensures r.attestation[..|tx.attestation|] == tx.attestation
    decreases |ledgers|
  {
    if ledgers == [] then tx
    else Attested(ledgers[|ledgers| - 1], signer, signableBytes, AttestSeries(ledgers[..|ledgers| - 1], signer, signableBytes, tx))
  }

  /** The head is available and the signer signs. */
  predicate AttestSucceeds(ledger: Ledger, signer: WitnessContext -> Result<Witness, Error>,
                           signableBytes: TransactionValue -> seq<byte>, tx: TransactionValue)
  {
    Witnessed(ledger, signer, signableBytes, tx).Ok?
  }

  /** No deduplication: when every call succeeds, each call adds one witness. */
  lemma {:induction false} AttestSeriesCount(ledgers: seq<Ledger>, signer: WitnessContext -> Result<Witness, Error>,
                                             signableBytes: TransactionValue -> seq<byte>, tx: TransactionValue)
    requires forall i :: 0 <= i < |ledgers| ==> HeadHeight(ledgers[i]).Ok?
    requires forall c :: signer(c).Ok?
    ensures |AttestSeries(ledgers, signer, signableBytes, tx).attestation| == |tx.attestation| + |ledgers|
  {
    if ledgers != [] {
      var earlier := ledgers[..|ledgers| - 1];
      assert forall i :: 0 <= i < |earlier| ==> earlier[i] == ledgers[i];
      AttestSeriesCount(earlier, signer, signableBytes, tx);
      var mid := AttestSeries(earlier, signer, signableBytes, tx);
      assert Witnessed(ledgers[|ledgers| - 1], signer, signableBytes, mid).Ok?;
    }
  }

  /** Attesting twice appends two witnesses, each signed against the head seen by its
      own call and the bytes of the transaction as it was at that call. With the head
      advancing in between, their heights differ. */
  lemma AttestTwice(first: Ledger, second: Ledger, signer: WitnessContext -> Result<Witness, Error>,
                    signableBytes: TransactionValue -> seq<byte>, tx: TransactionValue)
    requires HeadHeight(first).Ok? && HeadHeight(second).Ok?
    requires HeadHeight(first).value < HeadHeight(second).value
    requires forall c :: signer(c).Ok?
    ensures var once := Attested(first, signer, signableBytes, tx);
      var c1 := WitnessContext(HeadHeight(first).value + 1, signableBytes(tx));
      var c2 := WitnessContext(HeadHeight(second).value + 1, signableBytes(once));
      once.attestation == tx.attestation + [signer(c1).value] &&
      AttestSeries([first, second], signer, signableBytes, tx).attestation ==
        tx.attestation + [signer(c1).value, signer(c2).value] &&
      c1.height < c2.height
  {
    var once := Attested(first, signer, signableBytes, tx);
    assert [first, second][..1] == [first];
    assert AttestSeries([first], signer, signableBytes, tx) == once;
  }

  /** With the head unchanged and a codec that ignores existing witnesses, the second
      attest signs the very same context, so a deterministic signer's witness is
      appended twice. */
  lemma AttestRepeatsWitness(ledger: Ledger, signer: WitnessContext -> Result<Witness, Error>,
                             signableBytes: TransactionValue -> seq<byte>, tx: TransactionValue)
    requires forall v: TransactionValue :: signableBytes(v) == signableBytes(TransactionValue(v.body, []))
    requires Witnessed(ledger, signer, signableBytes, tx).Ok?
    ensures var w := Witnessed(ledger, signer, signableBytes, tx).value;
      Attested(ledger, signer, signableBytes, Attested(ledger, signer, signableBytes, tx)).attestation ==
        tx.attestation + [w, w]
  {
    var once := Attested(ledger, signer, signableBytes, tx);
    assert signableBytes(once) == signableBytes(TransactionValue(tx.body, [])) == signableBytes(tx);
  }
}
