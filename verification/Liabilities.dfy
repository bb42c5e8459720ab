/**
 * The durable index of deals that may still hold value: wrasse/liabilities.py, and the creation
 * in `_create` of wrasse/executor.py that writes to it.
 */
module Liabilities {
  import opened Constants
  import opened Ledger

  type DealId = nat

  /** An intent this build minted, or the name a migrated row was given. */
  datatype Intent = Minted(id: nat) | Migrated(deal: DealId)

  /** The ledger's hash for an intent is as good as the intent, so a row records whether it has it. */
  datatype Liability = Liability(session: nat, hashKnown: bool, deal: Option<DealId>)

  type Index = map<Intent, Liability>

  // ---------------------------------------------------------------------------------------
  // The index's writes
  // ---------------------------------------------------------------------------------------

  /** `open_intent`: insert or ignore. */
  function Opened(rows: Index, intent: Intent, session: nat): Index {
    if intent in rows then rows else rows[intent := Liability(session, false, None)]
  }

  /** `attach`: what has become known, never clearing what already is. */
  function Attached(rows: Index, intent: Intent, hash: bool, deal: Option<DealId>): Index {
    if intent !in rows then rows
    else rows[intent := rows[intent].(
      hashKnown := rows[intent].hashKnown || hash,
      deal := if deal.Some? then deal else rows[intent].deal)]
  }

  /** `discard`: only a row that never learned a deal id. */
  function Discarded(rows: Index, intent: Intent): Index {
    map i | i in rows && !(i == intent && rows[i].deal.None?) :: rows[i]
  }

  /** `close`: every row for this deal. */
  function ClosedIndex(rows: Index, deal: DealId): Index {
    map i | i in rows && rows[i].deal != Some(deal) :: rows[i]
  }

  class LiabilityIndex {
    var rows: Index

    constructor ()
      ensures rows == map[]
    {
      rows := map[];
    }

    method OpenIntent(intent: Intent, session: nat)
      modifies this
      ensures rows == Opened(old(rows), intent, session)
      ensures intent in rows && forall i :: i in old(rows) ==> i in rows && rows[i] == old(rows)[i]
      ensures intent !in old(rows) ==> rows == old(rows)[intent := Liability(session, false, None)]
    {
      if intent !in rows {
        rows := rows[intent := Liability(session, false, None)];
      }
    }

    method Attach(intent: Intent, hash: bool, deal: Option<DealId>)
      modifies this
      ensures rows == Attached(old(rows), intent, hash, deal)
    {
      if intent in rows && hash {
        rows := rows[intent := rows[intent].(hashKnown := true)];
      }
      if intent in rows && deal.Some? {
        rows := rows[intent := rows[intent].(deal := deal)];
      }
    }

    method Discard(intent: Intent)
      modifies this
      ensures rows == Discarded(old(rows), intent)
      ensures rows.Keys == old(rows).Keys - if intent in old(rows) && old(rows)[intent].deal.None? then {intent} else {}
      ensures forall i :: i in rows ==> rows[i] == old(rows)[i]
    {
      rows := map i | i in rows && !(i == intent && rows[i].deal.None?) :: rows[i];
    }

    method Close(deal: DealId)
      modifies this
      ensures rows == ClosedIndex(old(rows), deal)
      ensures forall i :: i in rows <==> i in old(rows) && old(rows)[i].deal != Some(deal)
      ensures forall i :: i in rows ==> rows[i] == old(rows)[i]
    {
      rows := map i | i in rows && rows[i].deal != Some(deal) :: rows[i];
    }
  }

  // ---------------------------------------------------------------------------------------
  // The deals the index must never lose
  // ---------------------------------------------------------------------------------------

  datatype DealState = Offered | Accepted | Delivered | ReleasedDeal | TimedOut | Cancelled

  /** Its value has been credited to somebody, where a withdrawal can see it. */
  predicate Over(state: DealState) {
    state.ReleasedDeal? || state.TimedOut? || state.Cancelled?
  }

  /** The states the contract's actions lead to. */
  predicate Follows(from: DealState, to: DealState) {
    match from
    case Offered => to.Accepted? || to.Cancelled?
    case Accepted => to.Delivered? || to.TimedOut?
    case Delivered => to.ReleasedDeal?
    case _ => false
  }

  /** The contract's edges by where they lead, each for its own reason; and a deal is over exactly when no edge leaves it. */
  lemma WhatADealMayBecome(from: DealState)
    ensures !Follows(from, Offered)
    ensures Follows(from, Accepted) <==> from.Offered?
    ensures Follows(from, Cancelled) <==> from.Offered?
    ensures Follows(from, Delivered) <==> from.Accepted?
    ensures Follows(from, TimedOut) <==> from.Accepted?
    ensures Follows(from, ReleasedDeal) <==> from.Delivered?
    ensures Over(from) <==> forall to :: !Follows(from, to)
  {
    assert from.Offered? ==> Follows(from, Cancelled);
    assert from.Accepted? ==> Follows(from, TimedOut);
    assert from.Delivered? ==> Follows(from, ReleasedDeal);
  }

  datatype Deal = Deal(intent: Intent, state: DealState)

  /** What became of a creation's transaction, once that is permanent. */
  datatype Fate = Made(deal: DealId) | NoDeal

  /** `creating` are the creations whose process is alive; `fates` what the chain has decided. */
  datatype World = World(
    rows: Index,
    ledger: map<Intent, Status>,
    deals: map<DealId, Deal>,
    fates: map<Intent, Fate>,
    creating: set<Intent>)

  predicate NoDealStatus(s: Status) {
    s.Unbroadcast? || s.IncludedReverted? || s.ConfirmedReverted? || s.NonceConsumedOrReplaced?
  }

  predicate MadeDealStatus(s: Status) {
    s.IncludedSuccess? || s.ConfirmedSuccess?
  }

  datatype Action =
    /** The row, before anything is signed. */
    | Open(intent: Intent, session: nat)
    /** The ledger records the signed creation. */
    | Sign(intent: Intent)
    /** The chain decides: a deal, holding the price, or nothing. */
    | Decide(intent: Intent, fate: Fate)
    /** The ledger learns something of the creation. */
    | Learn(intent: Intent, status: Status)
    /** A row gains its hash. */
    | AttachHash(intent: Intent)
    /** A row gains the deal id its receipt names. */
    | AttachDeal(intent: Intent)
    /** The creation's own reply says it never reached a node. */
    | DropRefused(intent: Intent)
    /** A creation's process ends, one way or another. */
    | Die(intent: Intent)
    /** The process is gone, with everything it was creating. */
    | Restart
    /** One row's turn in the naming a boot does; the receipt may or may not be readable. */
    | NameOne(intent: Intent, readable: bool)
    /** A deal moves in the contract. */
    | Move(deal: DealId, state: DealState)
    /** A deal that is over is struck off. */
    | StrikeOff(deal: DealId)

  /** What `_name_unresolved` makes of a row whose deal id was never learned; nothing means it is discarded. */
  function NamedRow(ledger: map<Intent, Status>, receipt: Option<DealId>, intent: Intent, row: Liability): Option<Liability> {
    if row.deal.Some? then Some(row)
    else if intent !in ledger || NoDealStatus(ledger[intent]) then None
    else if !MadeDealStatus(ledger[intent]) then Some(row)
    else Some(row.(hashKnown := true, deal := receipt))
  }

  function Naming(rows: Index, ledger: map<Intent, Status>, receipt: Option<DealId>, intent: Intent): Index {
    if intent !in rows then rows
    else
      var named := NamedRow(ledger, receipt, intent, rows[intent]);
      if named.None? then map i | i in rows && i != intent :: rows[i] else rows[intent := named.value]
  }

  function ReceiptOf(w: World, intent: Intent, readable: bool): Option<DealId> {
    if readable && intent in w.fates && w.fates[intent].Made? then Some(w.fates[intent].deal) else None
  }

  function Step(w: World, action: Action): World {
    match action
    case Open(i, session) => w.(rows := Opened(w.rows, i, session), creating := w.creating + {i})
    case Sign(i) => w.(ledger := w.ledger[i := Signed])
    case Decide(i, fate) =>
      w.(fates := w.fates[i := fate], deals := if fate.Made? then w.deals[fate.deal := Deal(i, Offered)] else w.deals)
    case Learn(i, status) => w.(ledger := w.ledger[i := status])
    case AttachHash(i) => w.(rows := Attached(w.rows, i, true, None))
    case AttachDeal(i) => w.(rows := Attached(w.rows, i, false, ReceiptOf(w, i, true)))
    case DropRefused(i) => w.(rows := Discarded(w.rows, i), creating := w.creating - {i})
    case Die(i) => w.(creating := w.creating - {i})
    case Restart => w.(creating := {})
    case NameOne(i, readable) => w.(rows := Naming(w.rows, w.ledger, ReceiptOf(w, i, readable), i))
    case Move(d, state) => if d in w.deals then w.(deals := w.deals[d := w.deals[d].(state := state)]) else w
    case StrikeOff(d) => w.(rows := ClosedIndex(w.rows, d))
  }

  /** What each write may rest on. A creation is signed by its own live process; a status is learned only of what the chain decided. */
  predicate Honest(w: World, action: Action) {
    match action
    case Open(i, _) => i.Minted? && i !in w.ledger && i !in w.fates && i !in w.rows
    case Sign(i) => i in w.creating && i !in w.ledger
    case Decide(i, fate) => i in w.ledger && i !in w.fates && (fate.Made? ==> fate.deal !in w.deals)
    case Learn(i, status) =>
      && i in w.ledger
      && (NoDealStatus(status) ==> i in w.fates && w.fates[i].NoDeal?)
      && (MadeDealStatus(status) ==> i in w.fates && w.fates[i].Made?)
    case DropRefused(i) => i in w.ledger && w.ledger[i].Unbroadcast?
    case Move(d, state) => d in w.deals ==> Follows(w.deals[d].state, state)
    case StrikeOff(d) => d in w.deals && Over(w.deals[d].state)
    case _ => true
  }

  /** This creation has its row and has signed nothing yet, and its process is alive to sign. */
  predicate AboutToSign(w: World, i: Intent) {
    i in w.creating && i in w.rows && i !in w.ledger
  }

  /** No boot names a creation that is about to sign. */
  predicate Quiet(w: World, action: Action) {
    action.NameOne? ==> !AboutToSign(w, action.intent)
  }

  // ---------------------------------------------------------------------------------------
  // What every run keeps
  // ---------------------------------------------------------------------------------------

  /** A deal still holding value has its row, by intent or by the id it was given. */
  ghost predicate NothingLost(w: World) {
    forall d :: d in w.deals && !Over(w.deals[d].state) ==>
      && w.deals[d].intent in w.rows
      && (w.rows[w.deals[d].intent].deal.None? || w.rows[w.deals[d].intent].deal == Some(d))
  }

  /** What the ledger, the chain's decisions and the deals say of one another. */
  ghost predicate ChainInv(w: World) {
    && (forall i :: i in w.ledger ==> i.Minted?)
    && (forall i :: i in w.fates ==> i in w.ledger)
    && (forall i :: i in w.fates && w.fates[i].Made? ==> w.fates[i].deal in w.deals && w.deals[w.fates[i].deal].intent == i)
    && (forall d :: d in w.deals && w.deals[d].intent.Minted? ==>
         w.deals[d].intent in w.fates && w.fates[w.deals[d].intent] == Made(d))
    && (forall d :: d in w.deals && w.deals[d].intent.Migrated? ==> w.deals[d].intent.deal == d)
    && (forall i :: i in w.ledger && NoDealStatus(w.ledger[i]) ==> i in w.fates && w.fates[i].NoDeal?)
    && (forall i :: i in w.ledger && MadeDealStatus(w.ledger[i]) ==> i in w.fates && w.fates[i].Made?)
  }

  /** A creation that may still become a deal has its row, and a row's deal id is its own. */
  ghost predicate RowsInv(w: World) {
    && (forall i :: i in w.creating ==> i.Minted? && (i in w.rows || i in w.fates))
    && (forall i :: i in w.ledger && i !in w.fates ==> i in w.rows && w.rows[i].deal.None?)
    && (forall i :: i in w.rows && w.rows[i].deal.Some? ==>
         w.rows[i].deal.value in w.deals && w.deals[w.rows[i].deal.value].intent == i)
    && (forall i :: i in w.rows && i.Migrated? ==> w.rows[i].deal == Some(i.deal))
  }

  ghost predicate Inv(w: World) {
    NothingLost(w) && ChainInv(w) && RowsInv(w)
  }

  lemma DecideKeepsChain(w: World, intent: Intent, fate: Fate)
    requires ChainInv(w) && Honest(w, Decide(intent, fate))
    ensures ChainInv(Step(w, Decide(intent, fate)))
  {
  }

  lemma LearnKeepsChain(w: World, intent: Intent, status: Status)
    requires ChainInv(w) && Honest(w, Learn(intent, status))
    ensures ChainInv(Step(w, Learn(intent, status)))
  {
  }

  lemma SignKeepsChain(w: World, intent: Intent)
    requires ChainInv(w) && RowsInv(w) && Honest(w, Sign(intent))
    ensures ChainInv(Step(w, Sign(intent)))
  {
  }

  lemma MoveKeepsChain(w: World, deal: DealId, state: DealState)
    requires ChainInv(w)
    ensures ChainInv(Step(w, Move(deal, state)))
  {
  }

  lemma SameChain(w: World, after: World)
    requires ChainInv(w) && after.ledger == w.ledger && after.fates == w.fates && after.deals == w.deals
    ensures ChainInv(after)
  {
  }

  lemma StepKeepsChain(w: World, action: Action)
    requires ChainInv(w) && RowsInv(w) && Honest(w, action)
    ensures ChainInv(Step(w, action))
  {
    match action
    case Sign(i) => SignKeepsChain(w, i);
    case Decide(i, fate) => DecideKeepsChain(w, i, fate);
    case Learn(i, status) => LearnKeepsChain(w, i, status);
    case Move(d, state) => MoveKeepsChain(w, d, state);
    case _ => SameChain(w, Step(w, action));
  }

  /** Opening, signing, and the ends of a process. */
  lemma CreatingKeepsRows(w: World, action: Action)
    requires ChainInv(w) && RowsInv(w) && Honest(w, action)
    requires action.Open? || action.Sign? || action.DropRefused? || action.Die? || action.Restart?
    ensures RowsInv(Step(w, action))
  {
  }

  lemma ChainMovesKeepRows(w: World, action: Action)
    requires RowsInv(w) && Honest(w, action) && (action.Decide? || action.Learn? || action.Move?)
    ensures RowsInv(Step(w, action))
  {
  }

  lemma LearningKeepsRows(w: World, action: Action)
    requires ChainInv(w) && RowsInv(w) && (action.AttachHash? || action.AttachDeal?)
    ensures RowsInv(Step(w, action))
  {
  }

  lemma NamingKeepsRows(w: World, intent: Intent, readable: bool)
    requires ChainInv(w) && RowsInv(w) && !AboutToSign(w, intent)
    ensures RowsInv(Step(w, NameOne(intent, readable)))
  {
  }

  lemma StrikingOffKeepsRows(w: World, deal: DealId)
    requires ChainInv(w) && RowsInv(w) && deal in w.deals
    ensures RowsInv(Step(w, StrikeOff(deal)))
  {
  }

  lemma StepKeepsRows(w: World, action: Action)
    requires ChainInv(w) && RowsInv(w) && Honest(w, action) && Quiet(w, action)
    ensures RowsInv(Step(w, action))
  {
    match action
    case AttachHash(_) => LearningKeepsRows(w, action);
    case AttachDeal(_) => LearningKeepsRows(w, action);
    case NameOne(i, readable) => NamingKeepsRows(w, i, readable);
    case StrikeOff(d) => StrikingOffKeepsRows(w, d);
    case _ =>
      if action.Decide? || action.Learn? || action.Move? {
        ChainMovesKeepRows(w, action);
      } else {
        CreatingKeepsRows(w, action);
      }
  }

  lemma StepLosesNothing(w: World, action: Action)
    requires Inv(w) && Honest(w, action)
    ensures NothingLost(Step(w, action))
  {
  }

  lemma StepKeepsInv(w: World, action: Action)
    requires Inv(w) && Honest(w, action) && Quiet(w, action)
    ensures Inv(Step(w, action))
  {
    StepKeepsChain(w, action);
    StepKeepsRows(w, action);
    StepLosesNothing(w, action);
  }

  // ---------------------------------------------------------------------------------------
  // Whole runs
  // ---------------------------------------------------------------------------------------

  function Run(start: World, actions: seq<Action>): World {
    if actions == [] then start else Step(Run(start, actions[..|actions| - 1]), actions[|actions| - 1])
  }

  predicate HonestRun(start: World, actions: seq<Action>) {
    actions == [] ||
    (HonestRun(start, actions[..|actions| - 1]) && Honest(Run(start, actions[..|actions| - 1]), actions[|actions| - 1]))
  }

  predicate QuietRun(start: World, actions: seq<Action>) {
    actions == [] ||
    (QuietRun(start, actions[..|actions| - 1]) && Quiet(Run(start, actions[..|actions| - 1]), actions[|actions| - 1]))
  }

  /** A deployment that begins with what a migration brought: one row for each deal an older build left open, and nothing signed. */
  ghost predicate Inherited(w: World) {
    && w.ledger == map[] && w.fates == map[] && w.creating == {}
    && (forall i :: i in w.rows ==> i.Migrated? && w.rows[i].deal == Some(i.deal) && i.deal in w.deals)
    && (forall d :: d in w.deals ==> w.deals[d].intent == Migrated(d) && (Over(w.deals[d].state) || Migrated(d) in w.rows))
  }

  const EMPTY_WORLD := World(map[], map[], map[], map[], {})

  lemma {:induction false} EveryRunKeepsInv(start: World, actions: seq<Action>)
    requires Inv(start) && HonestRun(start, actions) && QuietRun(start, actions)
    ensures Inv(Run(start, actions))
  {
    if actions != [] {
      EveryRunKeepsInv(start, actions[..|actions| - 1]);
      StepKeepsInv(Run(start, actions[..|actions| - 1]), actions[|actions| - 1]);
    }
  }

  /**
   * Wherever processes die between writes and however often the deployment restarts, every deal
   * still holding value has its row, by its intent until its id is learned and with that id
   * afterwards.
   */
  lemma {:induction false} NoDepositIsLost(start: World, actions: seq<Action>)
    requires Inherited(start) && HonestRun(start, actions) && QuietRun(start, actions)
    ensures NothingLost(Run(start, actions))
  {
    EveryRunKeepsInv(start, actions);
  }

  /** A creation the ledger says made a deal keeps its row: with its hash, and with its deal's id once its receipt can be read. */
  lemma WhatNamingLearns(w: World, i: Intent, readable: bool)
    requires Inv(w) && i in w.rows && w.rows[i].deal.None? && i in w.ledger && MadeDealStatus(w.ledger[i])
    ensures i in w.fates && w.fates[i].Made?
    ensures Step(w, NameOne(i, readable)).rows
         == w.rows[i := w.rows[i].(hashKnown := true, deal := if readable then Some(w.fates[i].deal) else None)]
  {
  }

  /** Exactly which naming breaks the index: that of an intent whose live creation is about to sign. */
  lemma NamingIsSafeIff(w: World, i: Intent, readable: bool)
    requires Inv(w)
    ensures Inv(Step(w, NameOne(i, readable))) <==> !AboutToSign(w, i)
  {
    if AboutToSign(w, i) {
      assert i !in w.fates && i !in Step(w, NameOne(i, readable)).rows;
    } else {
      StepKeepsInv(w, NameOne(i, readable));
    }
  }

  /**
   * And what it costs: between a row and its signature the ledger holds nothing for the intent, so
   * the naming discards the row, and the deal the creation may then make has nothing pointing at it.
   */
  lemma {:induction false} NamingBesideACreationLosesIt(w: World, i: Intent, readable: bool, deal: DealId)
    requires Inv(w) && AboutToSign(w, i) && deal !in w.deals
    ensures var actions := [NameOne(i, readable), Sign(i), Decide(i, Made(deal))];
      HonestRun(w, actions) && !NothingLost(Run(w, actions))
  {
    LosingSteps(w, i, readable, deal);
    var none: seq<Action> := [];
    OneMore(w, none, NameOne(i, readable));
    OneMore(w, none + [NameOne(i, readable)], Sign(i));
    OneMore(w, none + [NameOne(i, readable)] + [Sign(i)], Decide(i, Made(deal)));
    assert none + [NameOne(i, readable)] + [Sign(i)] + [Decide(i, Made(deal))] == [NameOne(i, readable), Sign(i), Decide(i, Made(deal))];
  }

  lemma LosingSteps(w: World, i: Intent, readable: bool, deal: DealId)
    requires Inv(w) && AboutToSign(w, i) && deal !in w.deals
    ensures var named := Step(w, NameOne(i, readable)); var signed := Step(named, Sign(i));
      && Honest(w, NameOne(i, readable)) && Honest(named, Sign(i)) && Honest(signed, Decide(i, Made(deal)))
      && !NothingLost(Step(signed, Decide(i, Made(deal))))
  {
    var named := Step(w, NameOne(i, readable));
    assert i !in w.fates && w.rows[i].deal.None? && i !in named.rows;
    assert Step(Step(named, Sign(i)), Decide(i, Made(deal))).deals[deal] == Deal(i, Offered);
  }

  /** Such an intent is one step from an empty deployment. */
  lemma ACreationIsAboutToSign(intent: Intent, session: nat)
    requires intent.Minted?
    ensures Inherited(EMPTY_WORLD) && HonestRun(EMPTY_WORLD, [Open(intent, session)])
    ensures Inv(Run(EMPTY_WORLD, [Open(intent, session)])) && AboutToSign(Run(EMPTY_WORLD, [Open(intent, session)]), intent)
  {
    var none: seq<Action> := [];
    OneMore(EMPTY_WORLD, none, Open(intent, session));
    assert none + [Open(intent, session)] == [Open(intent, session)];
    StepKeepsInv(EMPTY_WORLD, Open(intent, session));
  }

  lemma {:induction false} OneMore(start: World, actions: seq<Action>, action: Action)
    ensures Run(start, actions + [action]) == Step(Run(start, actions), action)
    ensures HonestRun(start, actions + [action]) <==> HonestRun(start, actions) && Honest(Run(start, actions), action)
  {
  }
}
