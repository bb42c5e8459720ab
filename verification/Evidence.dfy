/** Neutral receipts and their identity: wrasse/evidence.py. */
module Evidence {
  import opened Constants

  /** `observed_at`: either an ISO instant or some other text a caller put there. */
  datatype Timestamp = Iso(seconds: int) | Text(text: string)

  /** The event and its canonical body are one value: spelling is the only thing canonicalisation changes. */
  datatype ChainEvent = ChainEvent(
    chainId: int, contract: Address, txHash: nat, logIndex: int, blockNumber: int,
    outcome: Outcome, dealId: int, buyer: Address, provider: Address, observedAt: Timestamp)

  /** `event_id` hashes exactly these four fields, and the hash is injective. */
  datatype EventId = EventId(chainId: int, contract: Address, txHash: nat, logIndex: int)

  function IdOf(e: ChainEvent): EventId {
    EventId(e.chainId, e.contract, e.txHash, e.logIndex)
  }

  /** `validate_chain_event`. */
  predicate ValidEvent(e: ChainEvent) {
    && e.chainId > 0
    && e.buyer != e.provider
    && e.logIndex >= 0 && e.blockNumber >= 0 && e.dealId >= 0
    && !e.outcome.Unrecognised?
    && e.observedAt != Text("")
  }

  /** Two accounts of one log of one transaction. */
  predicate OneLog(a: ChainEvent, b: ChainEvent) {
    a.chainId == b.chainId && a.contract == b.contract && a.txHash == b.txHash && a.logIndex == b.logIndex
  }

  /** Receipts share an id exactly when they are of one log: nothing else in them counts, and none of these four may be left out. */
  lemma OneIdIff(a: ChainEvent, b: ChainEvent)
    ensures IdOf(a) == IdOf(b) <==> OneLog(a, b)
  {
  }
}
