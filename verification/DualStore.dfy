/**
 * Two memories of the same receipts: `reconcile` of wrasse/reconciler.py delivers one verified
 * event to the buyer's store and then to the provider's, and the quote of wrasse/cli.py is
 * produced only when both recall the same receipts.
 */
module DualStore {
  import opened Constants
  import opened Evidence
  import opened EvidenceStore

  /** The two owners, on one chain with one escrow. */
  datatype Deployment = Deployment(buyer: Address, provider: Address, chainId: int, escrow: Address)

  function IdentityOf(dep: Deployment, side: Side): Identity {
    match side
    case Buyer => Identity(Buyer, dep.buyer, dep.chainId, dep.escrow)
    case Provider => Identity(Provider, dep.provider, dep.chainId, dep.escrow)
  }

  datatype Pair = Pair(buyer: Disk, provider: Disk)

  // ---------------------------------------------------------------------------------------
  // One delivery
  // ---------------------------------------------------------------------------------------

  /** What an ingest leaves of the writes its process had left to live. */
  function WritesLeft(who: Identity, d: Disk, event: ChainEvent, budget: nat): nat {
    if ValidEvent(event) then IngestProgress(who, d, event, budget).left else budget
  }

  /** `reconcile` past its verification: the buyer's store first, the provider's only if that returned. */
  function Deliver(dep: Deployment, p: Pair, event: ChainEvent, budget: nat): Pair {
    var first := IdentityOf(dep, Buyer);
    var buyer := AfterIngest(first, p.buyer, event, budget);
    if IngestOutcome(first, p.buyer, event, budget).Ingested? then
      Pair(buyer, AfterIngest(IdentityOf(dep, Provider), p.provider, event, WritesLeft(first, p.buyer, event, budget)))
    else
      Pair(buyer, p.provider)
  }

  /** Both ingests returned. */
  predicate Delivered(dep: Deployment, p: Pair, event: ChainEvent, budget: nat) {
    var first := IdentityOf(dep, Buyer);
    && IngestOutcome(first, p.buyer, event, budget).Ingested?
    && IngestOutcome(IdentityOf(dep, Provider), p.provider, event, WritesLeft(first, p.buyer, event, budget)).Ingested?
  }

  /** No delivery makes more writes than this. */
  const DELIVERY_WRITES: nat := 2 * INGEST_WRITES

  datatype Delivery = Delivery(event: ChainEvent, budget: nat)

  /** Deliveries from two empty memories, each cut off wherever its writes ran out. */
  function Deliveries(dep: Deployment, run: seq<Delivery>): Pair {
    if run == [] then Pair(EMPTY_DISK, EMPTY_DISK)
    else
      var last := run[|run| - 1];
      Deliver(dep, Deliveries(dep, run[..|run| - 1]), last.event, last.budget)
  }

  // ---------------------------------------------------------------------------------------
  // What every pair keeps
  // ---------------------------------------------------------------------------------------

  ghost predicate PairInv(dep: Deployment, p: Pair) {
    && Inv(IdentityOf(dep, Buyer), p.buyer)
    && Inv(IdentityOf(dep, Provider), p.provider)
    && Keeps(p.provider, p.buyer)
  }

  lemma DeliverKeeps(dep: Deployment, p: Pair, event: ChainEvent, budget: nat)
    requires PairInv(dep, p)
    ensures PairInv(dep, Deliver(dep, p, event, budget))
    ensures Keeps(p.buyer, Deliver(dep, p, event, budget).buyer)
  {
    var left := WritesLeft(IdentityOf(dep, Buyer), p.buyer, event, budget);
    StoreKeeps(IdentityOf(dep, Buyer), p.buyer, event, budget);
    StoreKeeps(IdentityOf(dep, Provider), p.provider, event, left);
    DeliverKeepsOrder(dep, p, event, budget);
  }

  lemma DeliverKeepsOrder(dep: Deployment, p: Pair, event: ChainEvent, budget: nat)
    requires PairInv(dep, p)
    ensures var after := Deliver(dep, p, event, budget); Keeps(after.provider, after.buyer)
  {
    var who := IdentityOf(dep, Buyer);
    var left := WritesLeft(who, p.buyer, event, budget);
    var buyer := AfterIngest(who, p.buyer, event, budget);
    StoreKeeps(who, p.buyer, event, budget);
    IngestEntities(who, p.buyer, event, budget);
    IngestEntities(IdentityOf(dep, Provider), p.provider, event, left);
    NeverAhead(p, buyer, p.provider, event);
    if IngestOutcome(who, p.buyer, event, budget).Ingested? {
      assert buyer.entities[IdOf(event)] == Entity(event, true);
      NeverAhead(p, buyer, AfterIngest(IdentityOf(dep, Provider), p.provider, event, left), event);
    }
  }

  /** The provider gains at most what the buyer has just come to hold. */
  lemma NeverAhead(p: Pair, buyer: Disk, provider: Disk, event: ChainEvent)
    requires Keeps(p.provider, p.buyer) && Keeps(p.buyer, buyer)
    requires provider.entities == p.provider.entities
      || (provider.entities == p.provider.entities[IdOf(event) := Entity(event, true)]
          && IdOf(event) in buyer.entities && buyer.entities[IdOf(event)] == Entity(event, true))
    ensures Keeps(provider, buyer)
  {
  }

  lemma StoreKeeps(who: Identity, d: Disk, event: ChainEvent, budget: nat)
    requires Inv(who, d)
    ensures Inv(who, AfterIngest(who, d, event, budget)) && Keeps(d, AfterIngest(who, d, event, budget))
  {
    TraceOnlyAdds(who, d, event, budget);
    if ValidEvent(event) {
      CutIngestKeeps(who, d, event, budget);
    }
  }

  /**
   * After any run of deliveries, crashes anywhere and receipts re-included under other bodies
   * included, the provider never holds a receipt the buyer does not hold word for word.
   */
  lemma {:induction false} TheProviderIsNeverAhead(dep: Deployment, run: seq<Delivery>)
    ensures PairInv(dep, Deliveries(dep, run))
  {
    if run != [] {
      var shorter := run[..|run| - 1];
      TheProviderIsNeverAhead(dep, shorter);
      DeliverKeeps(dep, Deliveries(dep, shorter), run[|run| - 1].event, run[|run| - 1].budget);
    }
  }

  /** A delivery that lives long enough lands in both memories exactly when the buyer's holds no other body for that receipt. */
  lemma {:induction false} DeliveryLands(dep: Deployment, run: seq<Delivery>, event: ChainEvent, budget: nat)
    requires ValidEvent(event) && DELIVERY_WRITES <= budget
    ensures var p := Deliveries(dep, run);
      && (Delivered(dep, p, event, budget) <==> !Conflicts(p.buyer, event))
      && (Conflicts(p.buyer, event) ==> Deliver(dep, p, event, budget) == p)
  {
    TheProviderIsNeverAhead(dep, run);
    var p := Deliveries(dep, run);
    var who := IdentityOf(dep, Buyer);
    EnoughWrites(who, p.buyer, event, budget);
    SpentAtMost(who, p.buyer, event, budget);
    EnoughWrites(IdentityOf(dep, Provider), p.provider, event, WritesLeft(who, p.buyer, event, budget));
    if Conflicts(p.buyer, event) {
      ConflictChangesNothing(who, p.buyer, event, budget);
    }
  }

  lemma SpentAtMost(who: Identity, d: Disk, event: ChainEvent, budget: nat)
    requires ValidEvent(event) && INGEST_WRITES <= budget
    ensures budget - INGEST_WRITES <= WritesLeft(who, d, event, budget)
  {
  }

  // ---------------------------------------------------------------------------------------
  // Convergence
  // ---------------------------------------------------------------------------------------

  /** No receipt was re-included under another body. */
  ghost predicate OneBodyEach(told: set<ChainEvent>) {
    forall e, f :: e in told && f in told && IdOf(e) == IdOf(f) ==> e == f
  }

  /** What a store holds came from `told`, and any mark standing is for one of those. */
  ghost predicate ToldOnly(d: Disk, told: set<ChainEvent>) {
    && (forall id :: id in d.entities ==> d.entities[id].body in told)
    && (forall id :: id in d.pending ==> exists e :: e in told && IdOf(e) == id)
  }

  /** Every receipt of `landed` is held and has no mark standing. */
  ghost predicate Holds(d: Disk, landed: set<ChainEvent>) {
    forall e :: e in landed ==> IdOf(e) in d.entities && d.entities[IdOf(e)].body == e && IdOf(e) !in d.pending
  }

  lemma IngestTold(who: Identity, d: Disk, event: ChainEvent, budget: nat, told: set<ChainEvent>)
    requires ToldOnly(d, told)
    ensures ToldOnly(AfterIngest(who, d, event, budget), told + {event})
  {
    IngestEntities(who, d, event, budget);
    IngestMarks(who, d, event, budget);
    assert event in told + {event};
    var after := AfterIngest(who, d, event, budget);
    forall id | id in after.pending ensures exists e :: e in told + {event} && IdOf(e) == id {
      if id != IdOf(event) {
        var e :| e in told && IdOf(e) == id;
        assert e in told + {event};
      }
    }
  }

  lemma IngestMarks(who: Identity, d: Disk, event: ChainEvent, budget: nat)
    ensures AfterIngest(who, d, event, budget).pending <= d.pending + {IdOf(event)}
    ensures IngestOutcome(who, d, event, budget).Ingested? ==>
      AfterIngest(who, d, event, budget).pending == d.pending - {IdOf(event)}
  {
    if ValidEvent(event) && !Conflicts(d, event) {
      PersistEntities(Write(Progress(d, budget, false), Mark(d, IdOf(event))), event);
    }
  }

  lemma {:induction false} DeliveriesTold(dep: Deployment, run: seq<Delivery>)
    ensures var p := Deliveries(dep, run); ToldOnly(p.buyer, Told(run)) && ToldOnly(p.provider, Told(run))
  {
    if run != [] {
      var shorter := run[..|run| - 1];
      var last := run[|run| - 1];
      DeliveriesTold(dep, shorter);
      var p := Deliveries(dep, shorter);
      var who := IdentityOf(dep, Buyer);
      IngestTold(who, p.buyer, last.event, last.budget, Told(shorter));
      IngestTold(IdentityOf(dep, Provider), p.provider, last.event, WritesLeft(who, p.buyer, last.event, last.budget), Told(shorter));
    }
  }

  function Told(run: seq<Delivery>): set<ChainEvent> {
    if run == [] then {} else Told(run[..|run| - 1]) + {run[|run| - 1].event}
  }

  function Among(events: seq<ChainEvent>): set<ChainEvent> {
    if events == [] then {} else Among(events[..|events| - 1]) + {events[|events| - 1]}
  }

  lemma {:induction false} AmongIsMembership(events: seq<ChainEvent>)
    ensures forall e :: e in Among(events) <==> e in events
  {
    if events != [] {
      AmongIsMembership(events[..|events| - 1]);
      assert events == events[..|events| - 1] + [events[|events| - 1]];
    }
  }

  /** A replay of each event, every one living long enough to finish. */
  function Replays(events: seq<ChainEvent>): seq<Delivery> {
    seq(|events|, i requires 0 <= i < |events| => Delivery(events[i], DELIVERY_WRITES))
  }

  /**
   * Whatever pattern of partial deliveries came before, one finished replay of every receipt
   * leaves both memories with the same receipts and the same bodies, no mark standing, and a
   * journal that names exactly the receipts held.
   */
  lemma {:induction false} Convergence(dep: Deployment, run: seq<Delivery>, events: seq<ChainEvent>)
    requires forall e :: e in events ==> ValidEvent(e)
    requires Told(run) <= Among(events) && OneBodyEach(Among(events))
    ensures var p := Deliveries(dep, run + Replays(events));
      && p.buyer.entities == p.provider.entities
      && p.buyer.entities.Keys == (set e | e in events :: IdOf(e))
      && p.buyer.pending == {} == p.provider.pending
      && JournalMatches(p.buyer) && JournalMatches(p.provider)
  {
    var all := Among(events);
    AmongIsMembership(events);
    ReplaysLand(dep, run, events, all);
    TheProviderIsNeverAhead(dep, run + Replays(events));
    ConvergedPair(dep, Deliveries(dep, run + Replays(events)), all);
    assert (set e | e in events :: IdOf(e)) == (set e | e in all :: IdOf(e));
  }

  lemma ConvergedPair(dep: Deployment, p: Pair, all: set<ChainEvent>)
    requires PairInv(dep, p)
    requires ToldOnly(p.buyer, all) && ToldOnly(p.provider, all) && Holds(p.buyer, all) && Holds(p.provider, all)
    ensures p.buyer.entities == p.provider.entities && p.buyer.entities.Keys == (set e | e in all :: IdOf(e))
    ensures p.buyer.pending == {} == p.provider.pending
    ensures JournalMatches(p.buyer) && JournalMatches(p.provider)
  {
    BothHold(p.buyer, all);
    BothHold(p.provider, all);
    JournalIsExact(IdentityOf(dep, Buyer), p.buyer);
    JournalIsExact(IdentityOf(dep, Provider), p.provider);
  }

  /** After deduplication the journal names exactly the receipts held. */
  ghost predicate JournalMatches(d: Disk) {
    (set id | id in d.journal) == d.entities.Keys
  }

  lemma JournalIsExact(who: Identity, d: Disk)
    requires Inv(who, d) && d.pending == {}
    ensures JournalMatches(d)
  {
  }

  lemma BothHold(d: Disk, all: set<ChainEvent>)
    requires EntitiesCanonical(d) && ToldOnly(d, all) && Holds(d, all)
    ensures d.entities.Keys == (set e | e in all :: IdOf(e))
    ensures d.pending == {}
  {
  }

  lemma {:induction false} ReplaysLand(dep: Deployment, run: seq<Delivery>, events: seq<ChainEvent>, all: set<ChainEvent>)
    requires OneBodyEach(all) && Told(run) <= all
    requires Among(events) <= all && forall e :: e in all ==> ValidEvent(e)
    ensures var p := Deliveries(dep, run + Replays(events));
      && ToldOnly(p.buyer, all) && ToldOnly(p.provider, all)
      && Holds(p.buyer, Among(events)) && Holds(p.provider, Among(events))
  {
    if events == [] {
      assert run + Replays(events) == run;
      DeliveriesTold(dep, run);
    } else {
      var shorter := events[..|events| - 1];
      var last := events[|events| - 1];
      ReplaysLand(dep, run, shorter, all);
      OneMoreReplay(dep, run, events);
      TheProviderIsNeverAhead(dep, run + Replays(shorter));
      ReplayLands(dep, Deliveries(dep, run + Replays(shorter)), last, all, Among(shorter));
    }
  }

  lemma {:induction false} OneMoreReplay(dep: Deployment, run: seq<Delivery>, events: seq<ChainEvent>)
    requires events != []
    ensures Deliveries(dep, run + Replays(events))
         == Deliver(dep, Deliveries(dep, run + Replays(events[..|events| - 1])), events[|events| - 1], DELIVERY_WRITES)
  {
    var whole := run + Replays(events);
    assert whole[..|whole| - 1] == run + Replays(events[..|events| - 1]);
  }

  lemma ReplayLands(dep: Deployment, p: Pair, event: ChainEvent, all: set<ChainEvent>, landed: set<ChainEvent>)
    requires PairInv(dep, p) && OneBodyEach(all) && event in all && ValidEvent(event) && landed <= all
    requires ToldOnly(p.buyer, all) && ToldOnly(p.provider, all)
    requires Holds(p.buyer, landed) && Holds(p.provider, landed)
    ensures var r := Deliver(dep, p, event, DELIVERY_WRITES);
      && ToldOnly(r.buyer, all) && ToldOnly(r.provider, all)
      && Holds(r.buyer, landed + {event}) && Holds(r.provider, landed + {event})
  {
    var buyer, provider := IdentityOf(dep, Buyer), IdentityOf(dep, Provider);
    SpentAtMost(buyer, p.buyer, event, DELIVERY_WRITES);
    IngestLands(buyer, p.buyer, event, DELIVERY_WRITES, all, landed);
    IngestLands(provider, p.provider, event, WritesLeft(buyer, p.buyer, event, DELIVERY_WRITES), all, landed);
  }

  lemma IngestLands(who: Identity, d: Disk, event: ChainEvent, budget: nat, all: set<ChainEvent>, landed: set<ChainEvent>)
    requires Inv(who, d) && OneBodyEach(all) && event in all && ValidEvent(event) && landed <= all
    requires ToldOnly(d, all) && Holds(d, landed) && INGEST_WRITES <= budget
    ensures IngestOutcome(who, d, event, budget).Ingested?
    ensures var after := AfterIngest(who, d, event, budget);
      ToldOnly(after, all) && Holds(after, landed + {event})
  {
    EnoughWrites(who, d, event, budget);
    assert !Conflicts(d, event);
    IngestTold(who, d, event, budget, all);
    assert all + {event} == all;
    IngestEntities(who, d, event, budget);
    IngestMarks(who, d, event, budget);
    TraceOnlyAdds(who, d, event, budget);
  }

  /**
   * What convergence cannot survive. Once the buyer holds a receipt under one body and it is then
   * re-included under another, no number of replays of the new body changes either memory: what the
   * provider lacks it never gets, and a mark left standing stands.
   */
  lemma {:induction false} AReincludedReceiptIsStuck(dep: Deployment, run: seq<Delivery>, later: ChainEvent, times: nat)
    requires ValidEvent(later) && Conflicts(Deliveries(dep, run).buyer, later)
    ensures Deliveries(dep, run + Replays(seq(times, _ => later))) == Deliveries(dep, run)
  {
    var again := seq(times, _ => later);
    if times == 0 {
      assert run + Replays(again) == run;
    } else {
      AReincludedReceiptIsStuck(dep, run, later, times - 1);
      assert again[..times - 1] == seq(times - 1, _ => later);
      OneMoreReplay(dep, run, again);
      DeliveryLands(dep, run + Replays(again[..times - 1]), later, DELIVERY_WRITES);
    }
  }

  /** The writes an empty store makes of one receipt: six, or five when it is about nobody this owner dealt with. */
  function FirstWrites(dep: Deployment, event: ChainEvent): nat {
    if event.buyer == dep.buyer then 6 else 5
  }

  /** Such a memory is one crash away: a first delivery whose process lives for exactly the buyer's writes leaves the receipt with the buyer alone. */
  lemma {:induction false} ADeliveryCanReachOneStore(dep: Deployment, event: ChainEvent, later: ChainEvent)
    requires ValidEvent(event) && IdOf(later) == IdOf(event) && later != event
    ensures var p := Deliveries(dep, [Delivery(event, FirstWrites(dep, event))]);
      Conflicts(p.buyer, later) && p.provider == EMPTY_DISK
  {
    TheBuyersWrites(dep, event);
    FirstDeliveryStops(dep, event, FirstWrites(dep, event));
  }

  lemma TheBuyersWrites(dep: Deployment, event: ChainEvent)
    requires ValidEvent(event)
    ensures IngestOutcome(IdentityOf(dep, Buyer), EMPTY_DISK, event, FirstWrites(dep, event)).Ingested?
    ensures WritesLeft(IdentityOf(dep, Buyer), EMPTY_DISK, event, FirstWrites(dep, event)) == 0
  {
  }

  lemma {:induction false} FirstDeliveryStops(dep: Deployment, event: ChainEvent, budget: nat)
    requires ValidEvent(event)
    requires IngestOutcome(IdentityOf(dep, Buyer), EMPTY_DISK, event, budget).Ingested?
    requires WritesLeft(IdentityOf(dep, Buyer), EMPTY_DISK, event, budget) == 0
    ensures var p := Deliveries(dep, [Delivery(event, budget)]);
      IdOf(event) in p.buyer.entities && p.buyer.entities[IdOf(event)].body == event && p.provider == EMPTY_DISK
  {
    assert [Delivery(event, budget)][..0] == [];
    IngestEntities(IdentityOf(dep, Buyer), EMPTY_DISK, event, budget);
  }

  // ---------------------------------------------------------------------------------------
  // The quote's gate
  // ---------------------------------------------------------------------------------------

  datatype QuoteError = StoreRefused(error: RecallError) | MemoriesDisagree

  /** What each side goes into a quote with. */
  datatype Histories = Histories(buyer: map<EventId, ChainEvent>, provider: map<EventId, ChainEvent>)

  /** `_bilateral_quote` up to its engines: recall each side about the other, and refuse across a gap. */
  method BilateralHistories(dep: Deployment, buyer: WrasseStore, provider: WrasseStore)
    returns (r: Result<Histories, QuoteError>)
    requires buyer.identity == IdentityOf(dep, Buyer) && provider.identity == IdentityOf(dep, Provider)
    ensures r == Quoted(dep, Pair(buyer.disk, provider.disk))
    ensures r.Ok? ==>
      && Recalled(buyer.identity, buyer.disk, dep.provider).Ok? && Recalled(provider.identity, provider.disk, dep.buyer).Ok?
      && r.value.buyer == Recalled(buyer.identity, buyer.disk, dep.provider).value.evidence
      && r.value.provider == Recalled(provider.identity, provider.disk, dep.buyer).value.evidence
  {
    var held := buyer.Recall(dep.provider);
    if held.Err? {
      return Err(StoreRefused(held.error));
    }
    var counterheld := provider.Recall(dep.buyer);
    if counterheld.Err? {
      return Err(StoreRefused(counterheld.error));
    }
    if held.value.evidence.Keys != counterheld.value.evidence.Keys {
      return Err(MemoriesDisagree);
    }
    return Ok(Histories(held.value.evidence, counterheld.value.evidence));
  }

  /** How the two recalls and the comparison decide. */
  function Quoted(dep: Deployment, p: Pair): Result<Histories, QuoteError> {
    var held := Recalled(IdentityOf(dep, Buyer), p.buyer, dep.provider);
    var counterheld := Recalled(IdentityOf(dep, Provider), p.provider, dep.buyer);
    if held.Err? then Err(StoreRefused(held.error))
    else if counterheld.Err? then Err(StoreRefused(counterheld.error))
    else if held.value.evidence.Keys != counterheld.value.evidence.Keys then Err(MemoriesDisagree)
    else Ok(Histories(held.value.evidence, counterheld.value.evidence))
  }

  /**
   * On every pair deliveries can leave: a quote is produced only from one history. The two sides
   * hold the same receipts in the same words, and it is everything either memory
   * holds between these two parties.
   */
  lemma {:induction false} AQuoteIsOneHistory(dep: Deployment, run: seq<Delivery>)
    requires Quoted(dep, Deliveries(dep, run)).Ok?
    ensures var p := Deliveries(dep, run); var r := Quoted(dep, p);
      && r.value.buyer == r.value.provider
      && r.value.buyer.Keys == Scan(IdentityOf(dep, Buyer), p.buyer, dep.provider)
      && r.value.provider.Keys == Scan(IdentityOf(dep, Provider), p.provider, dep.buyer)
      && p.buyer.pending == {} == p.provider.pending
  {
    TheProviderIsNeverAhead(dep, run);
    var p := Deliveries(dep, run);
    IndexIsTheScan(IdentityOf(dep, Buyer), p.buyer, dep.provider);
    IndexIsTheScan(IdentityOf(dep, Provider), p.provider, dep.buyer);
  }

  /** Once both memories hold the same receipts and no mark stands, the gate never sees a disagreement. */
  lemma ConvergedMemoriesAgree(dep: Deployment, p: Pair)
    requires PairInv(dep, p) && p.buyer.entities == p.provider.entities
    requires p.buyer.pending == {} == p.provider.pending
    ensures var r := Quoted(dep, p);
      && (r.Ok? <==> forall id :: id in Scan(IdentityOf(dep, Buyer), p.buyer, dep.provider) ==>
                       Native(IdentityOf(dep, Buyer), p.buyer.entities[id].body))
      && (r.Err? ==> r == Err(StoreRefused(EvidenceRejected)))
  {
    IndexIsTheScan(IdentityOf(dep, Buyer), p.buyer, dep.provider);
    IndexIsTheScan(IdentityOf(dep, Provider), p.provider, dep.buyer);
    assert Scan(IdentityOf(dep, Buyer), p.buyer, dep.provider) == Scan(IdentityOf(dep, Provider), p.provider, dep.buyer);
  }

  // ---------------------------------------------------------------------------------------
  // The delivery itself
  // ---------------------------------------------------------------------------------------

  /** `reconcile`'s delivery, under both locks, by a process that lives for `budget` writes. */
  method Reconcile(dep: Deployment, buyer: WrasseStore, provider: WrasseStore, event: ChainEvent, budget: nat)
    returns (delivered: bool)
    requires buyer != provider
    requires buyer.identity == IdentityOf(dep, Buyer) && provider.identity == IdentityOf(dep, Provider)
    modifies buyer, provider
    ensures Pair(buyer.disk, provider.disk) == Deliver(dep, old(Pair(buyer.disk, provider.disk)), event, budget)
    ensures delivered <==> Delivered(dep, old(Pair(buyer.disk, provider.disk)), event, budget)
  {
    var left := WritesLeft(buyer.identity, buyer.disk, event, budget);
    var first := buyer.Ingest(event, budget);
    if !first.Ingested? {
      return false;
    }
    var second := provider.Ingest(event, left);
    return second.Ingested?;
  }
}
