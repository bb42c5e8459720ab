/**
 * One side's memory: the pending-marker write protocol, the exact index and the recall that
 * sets prices, wrasse/store.py with `persist_verified_event` of wrasse/evidence.py.
 *
 * The SDK has no transaction, so every write is its own step and a crash may fall after any of
 * them. `Disk` is what survives.
 */
module EvidenceStore {
  import opened Constants
  import opened Evidence

  datatype Identity = Identity(role: Side, owner: Address, chainId: int, escrow: Address)

  datatype Entity = Entity(body: ChainEvent, verified: bool)

  datatype Disk = Disk(
    entities: map<EventId, Entity>,
    journal: seq<EventId>,
    journalled: set<EventId>,
    pending: set<EventId>,
    index: map<Address, set<EventId>>)

  const EMPTY_DISK := Disk(map[], [], {}, {}, map[])

  const ENUMERATION_LIMIT: nat := 1_000

  // ---------------------------------------------------------------------------------------
  // What a receipt is about
  // ---------------------------------------------------------------------------------------

  /** `counterparty_of`: nobody, when the receipt is not about this owner's dealings. */
  function CounterpartyOf(who: Identity, body: ChainEvent): Option<Address> {
    match who.role
    case Buyer => if body.buyer == who.owner then Some(body.provider) else None
    case Provider => if body.provider == who.owner then Some(body.buyer) else None
  }

  /** What the index says. */
  function Indexed(d: Disk, counterparty: Address): set<EventId> {
    if counterparty in d.index then d.index[counterparty] else {}
  }

  /** What a full scan of the receipts would say. */
  function Scan(who: Identity, d: Disk, counterparty: Address): set<EventId> {
    set id | id in d.entities && CounterpartyOf(who, d.entities[id].body) == Some(counterparty)
  }

  // ---------------------------------------------------------------------------------------
  // The single writes
  // ---------------------------------------------------------------------------------------

  function Mark(d: Disk, id: EventId): Disk {
    d.(pending := d.pending + {id})
  }

  function Clear(d: Disk, id: EventId): Disk {
    d.(pending := d.pending - {id})
  }

  function Put(d: Disk, id: EventId, body: ChainEvent): Disk {
    d.(entities := d.entities[id := Entity(body, true)])
  }

  function Append(d: Disk, id: EventId): Disk {
    d.(journal := d.journal + [id])
  }

  function MarkJournalled(d: Disk, id: EventId): Disk {
    d.(journalled := d.journalled + {id})
  }

  /** `_add_to_index`: an id already there stays, one that is not is put there. */
  function AddToIndex(d: Disk, counterparty: Address, id: EventId): Disk {
    d.(index := d.index[counterparty := Indexed(d, counterparty) + {id}])
  }

  /** One write of a repair: file a receipt under whoever it is about. */
  function Reindex(who: Identity, d: Disk, id: EventId): Disk
    requires id in d.entities
  {
    var c := CounterpartyOf(who, d.entities[id].body);
    if c.None? then d else AddToIndex(d, c.value, id)
  }

  // ---------------------------------------------------------------------------------------
  // Ingest, write by write
  // ---------------------------------------------------------------------------------------

  /** The same id is already held with a different body. */
  predicate Conflicts(d: Disk, event: ChainEvent) {
    IdOf(event) in d.entities && d.entities[IdOf(event)].body != event
  }

  /** A process part-way through its writes: what is on disk, and how many more it lives to make. */
  datatype Progress = Progress(disk: Disk, left: nat, crashed: bool)

  /** One write, or the crash that came before it. */
  function Write(p: Progress, after: Disk): Progress {
    if p.crashed || p.left == 0 then p.(crashed := true) else Progress(after, p.left - 1, false)
  }

  /** `persist_verified_event` past its conflict check: the entity, then the journal, then the journal's own marker. */
  function Persist(p: Progress, event: ChainEvent): Progress {
    var id := IdOf(event);
    var stored := if id in p.disk.entities then p else Write(p, Put(p.disk, id, event));
    if id in stored.disk.journalled then stored
    else
      var appended := Write(stored, Append(stored.disk, id));
      Write(appended, MarkJournalled(appended.disk, id))
  }

  /** `ingest` of a valid event from a disk, by a process that lives for `budget` writes. */
  function IngestProgress(who: Identity, d: Disk, event: ChainEvent, budget: nat): Progress {
    var id := IdOf(event);
    var marked := Write(Progress(d, budget, false), Mark(d, id));
    if Conflicts(d, event) then
      if id in d.pending then marked else Write(marked, Clear(marked.disk, id))
    else
      var persisted := Persist(marked, event);
      var counterparty := CounterpartyOf(who, event);
      var indexed := if counterparty.None? then persisted
                     else Write(persisted, AddToIndex(persisted.disk, counterparty.value, id));
      Write(indexed, Clear(indexed.disk, id))
  }

  /** What is on disk when the process has finished, or died after `budget` writes. */
  function AfterIngest(who: Identity, d: Disk, event: ChainEvent, budget: nat): Disk {
    if ValidEvent(event) then IngestProgress(who, d, event, budget).disk else d
  }

  datatype IngestResult =
    | Ingested(created: bool, counterparty: Option<Address>)
    | InvalidEvidence
    | EventConflict
    | Crashed

  function IngestOutcome(who: Identity, d: Disk, event: ChainEvent, budget: nat): IngestResult {
    if !ValidEvent(event) then InvalidEvidence
    else if IngestProgress(who, d, event, budget).crashed then Crashed
    else if Conflicts(d, event) then EventConflict
    else Ingested(IdOf(event) !in d.entities, CounterpartyOf(who, event))
  }

  /** No ingest makes more writes than this. */
  const INGEST_WRITES: nat := 6

  lemma EnoughWrites(who: Identity, d: Disk, event: ChainEvent, budget: nat)
    requires INGEST_WRITES <= budget
    ensures !IngestProgress(who, d, event, budget).crashed
  {
  }

  // ---------------------------------------------------------------------------------------
  // What every disk keeps
  // ---------------------------------------------------------------------------------------

  ghost predicate EntitiesCanonical(d: Disk) {
    forall id :: id in d.entities ==>
      d.entities[id].verified && IdOf(d.entities[id].body) == id && ValidEvent(d.entities[id].body)
  }

  /** Nothing is indexed that a scan would not attribute to that counterparty. */
  ghost predicate IndexSound(who: Identity, d: Disk) {
    forall c: Address, id :: c in d.index && id in d.index[c] ==>
      id in d.entities && CounterpartyOf(who, d.entities[id].body) == Some(c)
  }

  /** A receipt with no marker standing is indexed and journalled. */
  ghost predicate SettledUnlessMarked(who: Identity, d: Disk) {
    forall id :: id in d.entities && id !in d.pending ==>
      && id in d.journalled
      && (var c := CounterpartyOf(who, d.entities[id].body); c.Some? ==> id in Indexed(d, c.value))
  }

  ghost predicate JournalSound(d: Disk) {
    && (forall id :: id in d.journalled ==> id in d.journal)
    && (forall id :: id in d.journal ==> id in d.entities)
  }

  ghost predicate Inv(who: Identity, d: Disk) {
    EntitiesCanonical(d) && IndexSound(who, d) && SettledUnlessMarked(who, d) && JournalSound(d)
  }

  lemma MarkKeeps(who: Identity, d: Disk, id: EventId)
    requires Inv(who, d)
    ensures Inv(who, Mark(d, id))
  {
  }

  lemma PutKeeps(who: Identity, d: Disk, event: ChainEvent)
    requires Inv(who, d) && ValidEvent(event) && IdOf(event) in d.pending && IdOf(event) !in d.entities
    ensures Inv(who, Put(d, IdOf(event), event))
  {
  }

  lemma JournalKeeps(who: Identity, d: Disk, id: EventId)
    requires Inv(who, d) && id in d.entities
    ensures Inv(who, Append(d, id))
    ensures Inv(who, MarkJournalled(Append(d, id), id))
  {
  }

  lemma IndexKeeps(who: Identity, d: Disk, c: Address, id: EventId)
    requires Inv(who, d) && id in d.entities && CounterpartyOf(who, d.entities[id].body) == Some(c)
    ensures Inv(who, AddToIndex(d, c, id)) && id in Indexed(AddToIndex(d, c, id), c)
  {
  }

  lemma ClearKeeps(who: Identity, d: Disk, id: EventId)
    requires Inv(who, d)
    requires id in d.entities ==>
      && id in d.journalled
      && (var c := CounterpartyOf(who, d.entities[id].body); c.Some? ==> id in Indexed(d, c.value))
    ensures Inv(who, Clear(d, id))
  {
  }

  lemma PersistKeeps(who: Identity, p: Progress, event: ChainEvent)
    requires Inv(who, p.disk) && ValidEvent(event) && !Conflicts(p.disk, event)
    requires !p.crashed ==> IdOf(event) in p.disk.pending
    ensures var r := Persist(p, event); var id := IdOf(event);
      && Inv(who, r.disk)
      && r.disk.pending == p.disk.pending && r.disk.index == p.disk.index
      && (p.crashed ==> r.crashed)
      && (!r.crashed ==>
           && r.disk.entities == p.disk.entities[id := Entity(event, true)]
           && r.disk.journalled == p.disk.journalled + {id}
           && r.disk.journal == (if id in p.disk.journalled then p.disk.journal else p.disk.journal + [id]))
  {
    var id := IdOf(event);
    var d := p.disk;
    if id in d.entities {
      assert d.entities[id] == Entity(event, true);
      assert d.entities[id := Entity(event, true)] == d.entities;
      JournalKeeps(who, d, id);
    } else if !p.crashed {
      PutKeeps(who, d, event);
      JournalKeeps(who, Put(d, id, event), id);
    }
  }

  /** Wherever an ingest is cut off, the disk keeps its invariant. */
  lemma CutIngestKeeps(who: Identity, d: Disk, event: ChainEvent, budget: nat)
    requires Inv(who, d) && ValidEvent(event)
    ensures Inv(who, IngestProgress(who, d, event, budget).disk)
  {
    var id := IdOf(event);
    var marked := Write(Progress(d, budget, false), Mark(d, id));
    MarkKeeps(who, d, id);
    if Conflicts(d, event) {
      ConflictChangesNothing(who, d, event, budget);
    } else {
      PersistKeeps(who, marked, event);
      var persisted := Persist(marked, event);
      if !persisted.crashed {
        var c := CounterpartyOf(who, event);
        if c.None? {
          ClearKeeps(who, persisted.disk, id);
        } else {
          IndexKeeps(who, persisted.disk, c.value, id);
          ClearKeeps(who, AddToIndex(persisted.disk, c.value, id), id);
        }
      }
    }
  }

  /** What a clean ingest leaves: the receipt held, journalled, indexed and unmarked, and nothing else touched. */
  function Landed(who: Identity, d: Disk, event: ChainEvent): Disk {
    var id := IdOf(event);
    var c := CounterpartyOf(who, event);
    Disk(
      d.entities[id := Entity(event, true)],
      if id in d.journalled then d.journal else d.journal + [id],
      d.journalled + {id},
      d.pending - {id},
      if c.None? then d.index else d.index[c.value := Indexed(d, c.value) + {id}])
  }

  lemma IngestKeeps(who: Identity, d: Disk, event: ChainEvent, budget: nat)
    requires Inv(who, d) && ValidEvent(event)
    ensures var r := IngestProgress(who, d, event, budget);
      && Inv(who, r.disk)
      && (!r.crashed && !Conflicts(d, event) ==> r.disk == Landed(who, d, event))
  {
    CutIngestKeeps(who, d, event, budget);
    if !Conflicts(d, event) {
      var marked := Write(Progress(d, budget, false), Mark(d, IdOf(event)));
      MarkKeeps(who, d, IdOf(event));
      PersistKeeps(who, marked, event);
      assert d.pending + {IdOf(event)} - {IdOf(event)} == d.pending - {IdOf(event)};
    }
  }

  /** A conflict that finishes leaves the disk exactly as it found it: it clears only its own mark. */
  lemma ConflictChangesNothing(who: Identity, d: Disk, event: ChainEvent, budget: nat)
    requires Conflicts(d, event)
    ensures var r := IngestProgress(who, d, event, budget);
      r.disk == d || (r.crashed && r.disk == Mark(d, IdOf(event)))
  {
  }

  /** Replaying a receipt that already landed changes nothing on this disk, its journal included. */
  lemma ReplayChangesNothing(who: Identity, d: Disk, event: ChainEvent, budget: nat)
    requires Inv(who, d) && IdOf(event) in d.entities && d.entities[IdOf(event)].body == event
    requires IdOf(event) !in d.pending && !IngestProgress(who, d, event, budget).crashed
    ensures AfterIngest(who, d, event, budget) == d
    ensures IngestOutcome(who, d, event, budget) == Ingested(false, CounterpartyOf(who, event))
  {
    var id := IdOf(event);
    IngestKeeps(who, d, event, budget);
    assert d.entities[id := Entity(event, true)] == d.entities;
    assert d.pending - {id} == d.pending && d.journalled + {id} == d.journalled;
    var c := CounterpartyOf(who, event);
    if c.Some? {
      assert Indexed(d, c.value) + {id} == Indexed(d, c.value);
      assert d.index[c.value := Indexed(d, c.value) + {id}] == d.index;
    }
  }

  // ---------------------------------------------------------------------------------------
  // Whole runs
  // ---------------------------------------------------------------------------------------

  /** An ingest cut off after some writes, or one write of an index repair. */
  datatype Action =
    | Ingesting(event: ChainEvent, budget: nat)
    | Reindexing(id: EventId)

  function Apply(who: Identity, d: Disk, action: Action): Disk {
    match action
    case Ingesting(event, budget) => AfterIngest(who, d, event, budget)
    case Reindexing(id) => if id in d.entities then Reindex(who, d, id) else d
  }

  function Run(who: Identity, actions: seq<Action>): Disk {
    if actions == [] then EMPTY_DISK
    else Apply(who, Run(who, actions[..|actions| - 1]), actions[|actions| - 1])
  }

  lemma {:induction false} EveryRunKeepsInv(who: Identity, actions: seq<Action>)
    ensures Inv(who, Run(who, actions))
  {
    if actions != [] {
      var before := Run(who, actions[..|actions| - 1]);
      EveryRunKeepsInv(who, actions[..|actions| - 1]);
      match actions[|actions| - 1]
      case Ingesting(event, budget) =>
        if ValidEvent(event) {
          IngestKeeps(who, before, event, budget);
        }
      case Reindexing(id) =>
        if id in before.entities && CounterpartyOf(who, before.entities[id].body).Some? {
          IndexKeeps(who, before, CounterpartyOf(who, before.entities[id].body).value, id);
        }
    }
  }

  /** A receipt once stored is never lost and never rewritten, whatever happens after. */
  lemma {:induction false} EntitiesAreForever(who: Identity, actions: seq<Action>, n: nat)
    requires n <= |actions|
    ensures Keeps(Run(who, actions[..n]), Run(who, actions))
  {
    if n == |actions| {
      assert actions[..n] == actions;
    } else {
      var shorter := actions[..|actions| - 1];
      EntitiesAreForever(who, shorter, n);
      assert shorter[..n] == actions[..n];
      var before := Run(who, shorter);
      match actions[|actions| - 1]
      case Ingesting(event, budget) => TraceOnlyAdds(who, before, event, budget);
      case Reindexing(_) =>
    }
  }

  lemma TraceOnlyAdds(who: Identity, d: Disk, event: ChainEvent, budget: nat)
    ensures Keeps(d, AfterIngest(who, d, event, budget))
  {
    if ValidEvent(event) && !Conflicts(d, event) {
      PersistOnlyAdds(Write(Progress(d, budget, false), Mark(d, IdOf(event))), event);
    }
  }

  lemma PersistOnlyAdds(p: Progress, event: ChainEvent)
    ensures Keeps(p.disk, Persist(p, event).disk)
  {
  }

  /** What one ingest does to the receipts a store holds. */
  lemma IngestEntities(who: Identity, d: Disk, event: ChainEvent, budget: nat)
    ensures var after := AfterIngest(who, d, event, budget).entities;
      && (after == d.entities || (after == d.entities[IdOf(event) := Entity(event, true)] && !Conflicts(d, event)))
      && (IngestOutcome(who, d, event, budget).Ingested? ==> IdOf(event) in after && after[IdOf(event)].body == event)
  {
    if ValidEvent(event) && !Conflicts(d, event) {
      PersistEntities(Write(Progress(d, budget, false), Mark(d, IdOf(event))), event);
    }
  }

  lemma PersistEntities(p: Progress, event: ChainEvent)
    requires !Conflicts(p.disk, event)
    ensures var after := Persist(p, event);
      && after.disk.pending == p.disk.pending
      && (after.disk.entities == p.disk.entities || after.disk.entities == p.disk.entities[IdOf(event) := Entity(event, true)])
      && (!after.crashed ==> IdOf(event) in after.disk.entities && after.disk.entities[IdOf(event)].body == event)
  {
  }

  /** What is turned away before anything is written: a receipt of no chain, of one party with itself, with a negative figure, of no known outcome, or of no time. */
  lemma WhatIsTurnedAway(who: Identity, d: Disk, event: ChainEvent, budget: nat)
    ensures IngestOutcome(who, d, event, budget) == InvalidEvidence <==>
      || event.chainId <= 0 || event.buyer == event.provider
      || event.logIndex < 0 || event.blockNumber < 0 || event.dealId < 0
      || event.outcome.Unrecognised? || event.observedAt == Text("")
    ensures IngestOutcome(who, d, event, budget) == InvalidEvidence ==> AfterIngest(who, d, event, budget) == d
  {
  }

  // ---------------------------------------------------------------------------------------
  // What conflicts
  // ---------------------------------------------------------------------------------------

  /** The store holds another account of the same log. */
  ghost predicate HoldsAnotherStory(d: Disk, event: ChainEvent) {
    exists id :: id in d.entities && OneLog(d.entities[id].body, event) && d.entities[id].body != event
  }

  /** The store holds this account. */
  ghost predicate HoldsStory(d: Disk, event: ChainEvent) {
    exists id :: id in d.entities && d.entities[id].body == event
  }

  /**
   * After any run, an ingest that lives long enough is a conflict exactly when the store holds
   * another account of the same log, and new exactly when it holds none.
   */
  lemma {:induction false} AConflictIsAnotherStory(who: Identity, actions: seq<Action>, event: ChainEvent, budget: nat)
    requires ValidEvent(event) && 6 <= budget
    ensures var d := Run(who, actions); var outcome := IngestOutcome(who, d, event, budget);
      && (outcome == EventConflict <==> HoldsAnotherStory(d, event))
      && (outcome.Ingested? <==> !HoldsAnotherStory(d, event))
      && (outcome.Ingested? ==> (outcome.created <==> !HoldsStory(d, event)))
      && (outcome.Ingested? ==> HoldsStory(AfterIngest(who, d, event, budget), event))
  {
    var d := Run(who, actions);
    EveryRunKeepsInv(who, actions);
    EnoughWrites(who, d, event, budget);
    if id :| id in d.entities && OneLog(d.entities[id].body, event) {
      OneIdIff(d.entities[id].body, event);
    }
    if IdOf(event) in d.entities {
      OneIdIff(d.entities[IdOf(event)].body, event);
    }
    IngestEntities(who, d, event, budget);
  }

  /** Whatever a store holds, it was told in exactly those words. */
  lemma {:induction false} HeldWereIngested(who: Identity, actions: seq<Action>, id: EventId)
    requires id in Run(who, actions).entities
    ensures exists i :: 0 <= i < |actions| && actions[i].Ingesting? && actions[i].event == Run(who, actions).entities[id].body
  {
    var shorter, last := actions[..|actions| - 1], actions[|actions| - 1];
    var before := Run(who, shorter);
    if last.Ingesting? {
      IngestEntities(who, before, last.event, last.budget);
    }
    if id in before.entities && Run(who, actions).entities[id] == before.entities[id] {
      HeldWereIngested(who, shorter, id);
      var i :| 0 <= i < |shorter| && shorter[i].Ingesting? && shorter[i].event == before.entities[id].body;
      assert actions[i] == shorter[i];
    } else {
      assert actions[|actions| - 1].event == Run(who, actions).entities[id].body;
    }
  }

  /** A receipt no other account of whose log was ever delivered, another transaction's least of all, is never refused. */
  lemma {:induction false} OtherLogsNeverConflict(who: Identity, actions: seq<Action>, event: ChainEvent, budget: nat)
    requires ValidEvent(event) && INGEST_WRITES <= budget
    requires forall i :: 0 <= i < |actions| && actions[i].Ingesting? && OneLog(actions[i].event, event) ==> actions[i].event == event
    ensures IngestOutcome(who, Run(who, actions), event, budget).Ingested?
    ensures HoldsStory(AfterIngest(who, Run(who, actions), event, budget), event)
  {
    var d := Run(who, actions);
    AConflictIsAnotherStory(who, actions, event, budget);
    if id :| id in d.entities && OneLog(d.entities[id].body, event) && d.entities[id].body != event {
      HeldWereIngested(who, actions, id);
    }
  }

  // ---------------------------------------------------------------------------------------
  // Recall
  // ---------------------------------------------------------------------------------------

  datatype Verdict = Match | NoMatch | EmptyStore

  /** The evidence by id; the order a recall lists it in is not part of this model. */
  datatype Recollection = Recollection(counterparty: Address, evidence: map<EventId, ChainEvent>, verdict: Verdict)

  datatype RecallError = IngestionIncomplete | EvidenceRejected

  /** `_validated`: everything that must hold of a row before it may be priced. */
  predicate Validated(who: Identity, entity: Entity, id: EventId, counterparty: Address) {
    var body := entity.body;
    && entity.verified
    && body.chainId == who.chainId && body.contract == who.escrow
    && !body.outcome.Unrecognised?
    && (if who.role == Buyer then body.buyer == who.owner && body.provider == counterparty
        else body.provider == who.owner && body.buyer == counterparty)
    && body.dealId >= 0 && body.blockNumber >= 0 && body.logIndex >= 0
    && body.observedAt.Iso?
    && ValidEvent(body) && IdOf(body) == id
  }

  predicate Explainable(who: Identity, d: Disk, id: EventId, counterparty: Address) {
    id in d.entities && Validated(who, d.entities[id], id, counterparty)
  }

  /** What `recall` answers, read off the index. */
  function Recalled(who: Identity, d: Disk, counterparty: Address): Result<Recollection, RecallError> {
    var identifiers := Indexed(d, counterparty);
    if d.pending != {} then Err(IngestionIncomplete)
    else if exists id :: id in identifiers && !Explainable(who, d, id, counterparty) then Err(EvidenceRejected)
    else
      Ok(Recollection(
        counterparty,
        map id | id in identifiers && id in d.entities :: d.entities[id].body,
        if identifiers != {} then Match else if d.entities.Keys != {} then NoMatch else EmptyStore))
  }

  /** Whatever a disk holds, and however it came to: what a recall answers with is verified, valid, of this deployment, under its own id, and between this owner and that counterparty. */
  lemma WhatIsRecalledIsSound(who: Identity, d: Disk, counterparty: Address, id: EventId)
    requires Recalled(who, d, counterparty).Ok? && id in Recalled(who, d, counterparty).value.evidence
    ensures id in d.entities && d.entities[id].verified && IdOf(d.entities[id].body) == id
    ensures var body := Recalled(who, d, counterparty).value.evidence[id];
      && body == d.entities[id].body && ValidEvent(body)
      && body.chainId == who.chainId && body.contract == who.escrow && body.observedAt.Iso?
      && (who.role == Buyer ==> body.buyer == who.owner && body.provider == counterparty)
      && (who.role == Provider ==> body.provider == who.owner && body.buyer == counterparty)
  {
    assert Explainable(who, d, id, counterparty);
  }

  /** A receipt `verify_outcome` would have delivered to this store. */
  predicate Native(who: Identity, body: ChainEvent) {
    body.chainId == who.chainId && body.contract == who.escrow && body.observedAt.Iso?
  }

  /**
   * On every disk a run can leave behind, a recall either refuses because an ingest is
   * unfinished, or answers with exactly what a full scan would attribute to that counterparty.
   * It rejects evidence exactly when a receipt about them names another deployment or carries
   * a time nobody can read.
   */
  lemma {:induction false} RecallIsExact(who: Identity, actions: seq<Action>, counterparty: Address)
    ensures var d := Run(who, actions); var scan := Scan(who, d, counterparty); var r := Recalled(who, d, counterparty);
      && (r == Err(IngestionIncomplete) <==> d.pending != {})
      && (r == Err(EvidenceRejected) <==> d.pending == {} && exists id :: id in scan && !Native(who, d.entities[id].body))
      && (r.Ok? ==>
           && r.value.evidence.Keys == scan
           && (forall id :: id in scan ==> r.value.evidence[id] == d.entities[id].body)
           && (r.value.verdict == Match <==> scan != {})
           && (r.value.verdict == EmptyStore <==> d.entities.Keys == {}))
  {
    var d := Run(who, actions);
    EveryRunKeepsInv(who, actions);
    if d.pending == {} {
      IndexIsTheScan(who, d, counterparty);
      assert forall id :: id in Indexed(d, counterparty) ==>
        (Explainable(who, d, id, counterparty) <==> Native(who, d.entities[id].body));
      if d.entities.Keys == {} {
        assert Scan(who, d, counterparty) == {};
      }
    }
  }

  /** Every receipt a run ingests is one `verify_outcome` would have delivered here. */
  ghost predicate NativeRun(who: Identity, actions: seq<Action>) {
    forall i :: 0 <= i < |actions| && actions[i].Ingesting? ==> Native(who, actions[i].event)
  }

  /** A store told only verified outcomes of its own deployment never rejects its evidence. */
  lemma {:induction false} VerifiedEvidenceIsNeverRejected(who: Identity, actions: seq<Action>, counterparty: Address)
    requires NativeRun(who, actions)
    ensures Recalled(who, Run(who, actions), counterparty) != Err(EvidenceRejected)
  {
    RecallIsExact(who, actions, counterparty);
    HeldAreNative(who, actions);
  }

  lemma {:induction false} HeldAreNative(who: Identity, actions: seq<Action>)
    requires NativeRun(who, actions)
    ensures forall id :: id in Run(who, actions).entities ==> Native(who, Run(who, actions).entities[id].body)
  {
    if actions != [] {
      var shorter := actions[..|actions| - 1];
      HeldAreNative(who, shorter);
      match actions[|actions| - 1]
      case Ingesting(event, budget) => IngestEntities(who, Run(who, shorter), event, budget);
      case Reindexing(_) =>
    }
  }

  lemma IndexIsTheScan(who: Identity, d: Disk, counterparty: Address)
    requires Inv(who, d) && d.pending == {}
    ensures Indexed(d, counterparty) == Scan(who, d, counterparty)
  {
  }

  // ---------------------------------------------------------------------------------------
  // Repair
  // ---------------------------------------------------------------------------------------

  /** A receipt about somebody that the index has lost. */
  predicate IsLost(who: Identity, d: Disk, id: EventId)
    requires id in d.entities
  {
    var c := CounterpartyOf(who, d.entities[id].body);
    c.Some? && id !in Indexed(d, c.value)
  }

  function Lost(who: Identity, d: Disk): set<EventId> {
    set id | id in d.entities && IsLost(who, d, id)
  }

  /** The index with everything a scan finds put back, and nothing else changed. */
  ghost predicate Repaired(who: Identity, d: Disk, after: Disk) {
    && after.entities == d.entities && after.pending == d.pending
    && after.journal == d.journal && after.journalled == d.journalled
    && forall c: Address :: Indexed(after, c) == Indexed(d, c) + Scan(who, d, c)
  }

  /** From any index that claims nothing false, a repair leaves the exact projection, and a second one finds nothing to do. */
  lemma RepairIsExact(who: Identity, d: Disk, after: Disk)
    requires IndexSound(who, d) && Repaired(who, d, after)
    ensures forall c: Address :: Indexed(after, c) == Scan(who, after, c)
    ensures IndexSound(who, after) && Lost(who, after) == {}
  {
    forall c: Address ensures Indexed(after, c) == Scan(who, after, c) {
      assert Indexed(d, c) <= Scan(who, d, c);
    }
    forall c: Address, id | c in after.index && id in after.index[c]
      ensures id in after.entities && CounterpartyOf(who, after.entities[id].body) == Some(c)
    {
      assert id in Indexed(after, c);
    }
  }

  // ---------------------------------------------------------------------------------------
  // The store object
  // ---------------------------------------------------------------------------------------

  datatype StoreError = TooManyToEnumerate

  datatype PersistResult = Persisted(created: bool) | Refused | Died

  class WrasseStore {
    const identity: Identity
    /** What the memory client holds; each assignment below is one write of its own. */
    var disk: Disk

    constructor (identity: Identity)
      ensures this.identity == identity && disk == EMPTY_DISK
    {
      this.identity := identity;
      disk := EMPTY_DISK;
    }

    /** `persist_verified_event`, dying when the writes run out: refuse a second body before any write, then fill in what is missing. */
    method PersistVerifiedEvent(event: ChainEvent, budget: nat) returns (persisted: PersistResult, left: nat)
      modifies this
      ensures Conflicts(old(disk), event) ==> persisted.Refused? && disk == old(disk) && left == budget
      ensures !Conflicts(old(disk), event) ==>
        && Progress(disk, left, persisted.Died?) == Persist(Progress(old(disk), budget, false), event)
        && (persisted.Persisted? ==> (persisted.created <==> IdOf(event) !in old(disk).entities))
        && !persisted.Refused?
    {
      var id := IdOf(event);
      left := budget;
      var created := id !in disk.entities;
      if !created && disk.entities[id].body != event {
        return Refused, left;
      }
      if created {
        if left == 0 { return Died, left; }
        disk, left := Put(disk, id, event), left - 1;
      }
      if id !in disk.journalled {
        if left == 0 { return Died, left; }
        disk, left := Append(disk, id), left - 1;
        if left == 0 { return Died, left; }
        disk, left := MarkJournalled(disk, id), left - 1;
      }
      return Persisted(created), left;
    }

    /** `ingest`, dying when `budget` writes have been made and another is due. */
    method Ingest(event: ChainEvent, budget: nat) returns (result: IngestResult)
      modifies this
      ensures disk == AfterIngest(identity, old(disk), event, budget)
      ensures result == IngestOutcome(identity, old(disk), event, budget)
    {
      if !ValidEvent(event) {
        return InvalidEvidence;
      }
      var id := IdOf(event);
      var owned := id !in disk.pending;
      if budget == 0 { return Crashed; }
      disk := Mark(disk, id);

      var persisted, left := PersistVerifiedEvent(event, budget - 1);
      if persisted.Refused? {
        if owned {
          if left == 0 { return Crashed; }
          disk := Clear(disk, id);
        }
        return EventConflict;
      }
      if persisted.Died? {
        return Crashed;
      }
      var counterparty := CounterpartyOf(identity, event);
      if counterparty.Some? {
        if left == 0 { return Crashed; }
        disk, left := AddToIndex(disk, counterparty.value, id), left - 1;
      }
      if left == 0 { return Crashed; }
      disk := Clear(disk, id);
      return Ingested(persisted.created, counterparty);
    }

    /** `_recall_locked`: the marker check, the index read and every record, in one snapshot. */
    method Recall(counterparty: Address) returns (r: Result<Recollection, RecallError>)
      ensures r == Recalled(identity, disk, counterparty)
    {
      if disk.pending != {} {
        return Err(IngestionIncomplete);
      }
      var identifiers := Indexed(disk, counterparty);
      var evidence: map<EventId, ChainEvent> := map[];
      var rest := identifiers;
      while rest != {}
        invariant rest <= identifiers && evidence.Keys == identifiers - rest
        invariant forall id :: id in evidence ==>
          Explainable(identity, disk, id, counterparty) && evidence[id] == disk.entities[id].body
        decreases rest
      {
        var id :| id in rest;
        if id !in disk.entities || !Validated(identity, disk.entities[id], id, counterparty) {
          assert !Explainable(identity, disk, id, counterparty);
          return Err(EvidenceRejected);
        }
        evidence := evidence[id := disk.entities[id].body];
        rest := rest - {id};
      }
      assert evidence == map id | id in identifiers && id in disk.entities :: disk.entities[id].body;
      var verdict := if identifiers != {} then Match else if disk.entities.Keys != {} then NoMatch else EmptyStore;
      return Ok(Recollection(counterparty, evidence, verdict));
    }

    /** `repair_index`: put back what the index has lost and count it, or refuse a page that may be short. */
    method RepairIndex() returns (repaired: Result<nat, StoreError>)
      modifies this
      ensures |old(disk).entities| >= 1_000 ==> repaired == Err(TooManyToEnumerate) && disk == old(disk)
      ensures |old(disk).entities| < 1_000 ==>
        repaired == Ok(|Lost(identity, old(disk))|) && Repaired(identity, old(disk), disk)
    {
      if |disk.entities| >= ENUMERATION_LIMIT {
        return Err(TooManyToEnumerate);
      }
      ghost var before := disk;
      var rest := disk.entities.Keys;
      var count: nat := 0;
      NothingRepairedYet(identity, before);
      while rest != {}
        invariant Repairing(identity, before, disk, rest, count)
        decreases rest
      {
        var id :| id in rest;
        RepairStep(identity, before, disk, rest, count, id);
        if IsLost(identity, disk, id) {
          disk := Reindex(identity, disk, id);
          count := count + 1;
        }
        rest := rest - {id};
      }
      AllLookedAt(identity, before, disk, count);
      return Ok(count);
    }

    /** One marker's turn in `finish_pending`: ingest the receipt it was left by. */
    method FinishMarker(
      ghost before: Disk, events: map<EventId, ChainEvent>, ghost done: set<EventId>, ghost finished: set<EventId>, id: EventId)
      returns (ingested: bool)
      requires id in events && FinishedSoFar(identity, before, disk, events, done, finished)
      modifies this
      ensures FinishedSoFar(identity, before, disk, events, done + {id}, finished + {id})
      ensures Originals(before, events) ==> ingested
    {
      FinishStep(identity, before, disk, events, done, finished, id);
      var result := Ingest(events[id], INGEST_WRITES);
      return result.Ingested?;
    }

    /**
     * `finish_pending` over the page of markers the SDK lists: complete every one whose receipt
     * is given. A receipt that is refused stops the repair where it stands.
     */
    method FinishPending(events: map<EventId, ChainEvent>, page: set<EventId>) returns (finished: set<EventId>, refused: bool)
      requires Inv(identity, disk) && IsPage(page, disk.pending)
      modifies this
      ensures Inv(identity, disk) && Keeps(old(disk), disk)
      ensures finished <= page * events.Keys
      ensures Originals(old(disk), events) ==>
        && !refused
        && finished == page * events.Keys
        && disk.pending == old(disk).pending - finished
      ensures Originals(old(disk), events) && |old(disk).pending| <= ENUMERATION_LIMIT && old(disk).pending <= events.Keys
        ==> disk.pending == {}
    {
      ghost var before := disk;
      finished, refused := {}, false;
      var rest := page;
      NothingFinishedYet(identity, before, events, page);
      while rest != {}
        invariant rest <= page
        invariant FinishedSoFar(identity, before, disk, events, page - rest, finished)
        decreases rest
      {
        var id :| id in rest;
        assert page - (rest - {id}) == (page - rest) + {id};
        if id in events {
          var ingested := FinishMarker(before, events, page - rest, finished, id);
          if !ingested {
            return finished, true;
          }
          finished := finished + {id};
        } else {
          SkipStep(identity, before, disk, events, page - rest, finished, id);
        }
        rest := rest - {id};
      }
      assert page - rest == page;
      EveryMarkerVisited(identity, before, disk, events, page, finished);
    }
  }

  /** A repair of markers that has looked at `done` and finished `finished`. */
  ghost predicate FinishedSoFar(
    who: Identity, before: Disk, now: Disk, events: map<EventId, ChainEvent>, done: set<EventId>, finished: set<EventId>)
  {
    && Inv(who, now) && Keeps(before, now)
    && finished <= done * events.Keys
    && (Originals(before, events) ==>
         && Originals(now, events)
         && finished == done * events.Keys
         && now.pending == before.pending - finished)
  }

  lemma NothingFinishedYet(who: Identity, d: Disk, events: map<EventId, ChainEvent>, page: set<EventId>)
    requires Inv(who, d)
    ensures FinishedSoFar(who, d, d, events, page - page, {})
  {
  }

  lemma FinishStep(
    who: Identity, before: Disk, now: Disk, events: map<EventId, ChainEvent>, done: set<EventId>, finished: set<EventId>, id: EventId)
    requires id in events && FinishedSoFar(who, before, now, events, done, finished)
    ensures FinishedSoFar(who, before, AfterIngest(who, now, events[id], INGEST_WRITES), events, done + {id}, finished + {id})
    ensures Originals(before, events) ==> IngestOutcome(who, now, events[id], INGEST_WRITES).Ingested?
  {
    FinishOne(who, now, events, id);
    assert (done + {id}) * events.Keys == done * events.Keys + {id};
    assert before.pending - (finished + {id}) == (before.pending - finished) - {id};
  }

  lemma SkipStep(
    who: Identity, before: Disk, now: Disk, events: map<EventId, ChainEvent>, done: set<EventId>, finished: set<EventId>, id: EventId)
    requires id !in events && FinishedSoFar(who, before, now, events, done, finished)
    ensures FinishedSoFar(who, before, now, events, done + {id}, finished)
  {
  }

  /** What `list_entities` gives: everything, or a full page of it. */
  ghost predicate IsPage(page: set<EventId>, all: set<EventId>) {
    page <= all && (|page| == |all| || |page| == ENUMERATION_LIMIT < |all|)
  }

  lemma EveryMarkerVisited(
    who: Identity, before: Disk, now: Disk, events: map<EventId, ChainEvent>, page: set<EventId>, finished: set<EventId>)
    requires FinishedSoFar(who, before, now, events, page, finished) && IsPage(page, before.pending)
    ensures Inv(who, now) && Keeps(before, now) && finished <= page * events.Keys
    ensures Originals(before, events) ==> finished == page * events.Keys && now.pending == before.pending - finished
    ensures Originals(before, events) && |before.pending| <= ENUMERATION_LIMIT && before.pending <= events.Keys ==> now.pending == {}
  {
    SmallPageIsWhole(page, before.pending);
  }

  lemma SmallPageIsWhole(page: set<EventId>, all: set<EventId>)
    requires IsPage(page, all)
    ensures |all| <= ENUMERATION_LIMIT ==> page == all
  {
    assert all == page + (all - page);
    assert |all| == |page| + |all - page|;
  }

  /** Every receipt is filed under its own id, and tells the story already held if one is. */
  ghost predicate Originals(d: Disk, events: map<EventId, ChainEvent>) {
    forall id :: id in events ==> IdOf(events[id]) == id && ValidEvent(events[id]) && !Conflicts(d, events[id])
  }

  /** Everything held before is held after, unchanged. */
  ghost predicate Keeps(before: Disk, after: Disk) {
    forall id :: id in before.entities ==> id in after.entities && after.entities[id] == before.entities[id]
  }

  lemma FinishOne(who: Identity, d: Disk, events: map<EventId, ChainEvent>, id: EventId)
    requires Inv(who, d) && id in events
    ensures var after := AfterIngest(who, d, events[id], INGEST_WRITES);
      && Inv(who, after) && Keeps(d, after)
      && !IngestOutcome(who, d, events[id], INGEST_WRITES).Crashed?
      && (Originals(d, events) ==>
           && IngestOutcome(who, d, events[id], INGEST_WRITES).Ingested?
           && after.pending == d.pending - {id} && Originals(after, events))
  {
    TraceOnlyAdds(who, d, events[id], INGEST_WRITES);
    if ValidEvent(events[id]) {
      EnoughWrites(who, d, events[id], INGEST_WRITES);
      IngestKeeps(who, d, events[id], INGEST_WRITES);
    }
  }

  /** A repair that has `rest` still to look at and has put `count` receipts back. */
  ghost predicate Repairing(who: Identity, d: Disk, now: Disk, rest: set<EventId>, count: nat) {
    && rest <= now.entities.Keys
    && IndexRepaired(who, d, now, rest)
    && count == |Lost(who, d) - rest|
  }

  ghost predicate IndexRepaired(who: Identity, d: Disk, now: Disk, rest: set<EventId>) {
    && now.entities == d.entities && now.pending == d.pending
    && now.journal == d.journal && now.journalled == d.journalled
    && forall c: Address :: Indexed(now, c) == Indexed(d, c) + (Scan(who, d, c) - rest)
  }

  lemma NothingRepairedYet(who: Identity, d: Disk)
    ensures Repairing(who, d, d, d.entities.Keys, 0)
  {
  }

  lemma AllLookedAt(who: Identity, d: Disk, now: Disk, count: nat)
    requires Repairing(who, d, now, {}, count)
    ensures Repaired(who, d, now) && count == |Lost(who, d)|
  {
  }

  lemma RepairStep(who: Identity, d: Disk, now: Disk, rest: set<EventId>, count: nat, id: EventId)
    requires id in rest && Repairing(who, d, now, rest, count)
    ensures if IsLost(who, now, id) then Repairing(who, d, Reindex(who, now, id), rest - {id}, count + 1)
            else Repairing(who, d, now, rest - {id}, count)
  {
    IndexStep(who, d, now, rest, id);
    LostStep(who, d, rest, id);
  }

  lemma IndexStep(who: Identity, d: Disk, now: Disk, rest: set<EventId>, id: EventId)
    requires id in rest && id in d.entities && IndexRepaired(who, d, now, rest)
    ensures IsLost(who, now, id) <==> id in Lost(who, d)
    ensures IndexRepaired(who, d, if IsLost(who, now, id) then Reindex(who, now, id) else now, rest - {id})
  {
  }

  lemma LostStep(who: Identity, d: Disk, rest: set<EventId>, id: EventId)
    requires id in rest
    ensures |Lost(who, d) - (rest - {id})| == |Lost(who, d) - rest| + (if id in Lost(who, d) then 1 else 0)
  {
    var lost := Lost(who, d);
    if id in lost {
      assert lost - (rest - {id}) == (lost - rest) + {id};
    } else {
      assert lost - (rest - {id}) == lost - rest;
    }
  }
}
