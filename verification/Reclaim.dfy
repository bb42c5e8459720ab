/**
 * What a boot does before it serves anybody: `_name_unresolved`, `_recover_deals` and
 * `_run_reclaim` of wrasse/executor.py, over the index and the escrow.
 */
module Reclaim {
  import opened Constants
  import opened Ledger
  import opened Liabilities
  import Chain
  import Resolver

  /** The escrow's deals, as the contract holds them. */
  class Escrow {
    var deals: map<DealId, DealState>

    constructor (deals: map<DealId, DealState>)
      ensures this.deals == deals
    {
      this.deals := deals;
    }
  }

  /** Statuses that no longer hold a wallet. */
  predicate Freed(s: Status) {
    NoDealStatus(s) || MadeDealStatus(s)
  }

  /** A status frees the wallet exactly when no row under it stops the next record. */
  lemma FreedIff(rows: Rows, key: Key)
    requires key in rows
    ensures Freed(rows[key].status) <==> key !in Blocking(rows, key.account)
  {
  }

  /** The creation's transaction succeeded, in the block its row names or in a permanent one. */
  ghost predicate Succeeded(row: Row, permanent: Chain.Blocks, succeeded: bool) {
    || (row.block.Some? && Chain.Mined(row.raw, succeeded) in row.block.value.hash.txs)
    || Chain.IsMined(permanent, row.raw, succeeded)
  }

  /** What the statuses say of a deal: it was made only by a creation that succeeded, and there is none only if the creation reverted, gave its nonce back, or can never be mined. */
  lemma WhatAStatusSaysOfADeal(row: Row, permanent: Chain.Blocks)
    requires Resolver.Truthful(row) && Resolver.Founded(row, permanent)
    ensures MadeDealStatus(row.status) ==> Succeeded(row, permanent, true)
    ensures NoDealStatus(row.status) ==>
      || Succeeded(row, permanent, false) || Released(row.status)
      || (row.raw.nonce < Chain.Count(permanent, row.raw.account) && !Chain.Holds(permanent, row.raw))
    ensures !(MadeDealStatus(row.status) && NoDealStatus(row.status))
  {
  }

  /** Where `_RECOVERY` drives a deal that is not over: each is the one action its state permits this service. */
  function RecoveredTo(state: DealState): DealState {
    match state
    case Offered => Cancelled
    case Accepted => TimedOut
    case Delivered => ReleasedDeal
    case _ => state
  }

  /** One action the contract allows ends any deal that is not over. */
  lemma OneActionEndsIt(state: DealState)
    ensures Liabilities.Over(RecoveredTo(state))
    ensures if Liabilities.Over(state) then RecoveredTo(state) == state else Follows(state, RecoveredTo(state))
  {
  }

  // ---------------------------------------------------------------------------------------
  // Naming
  // ---------------------------------------------------------------------------------------

  function ReceiptFor(receipts: map<Intent, DealId>, intent: Intent): Option<DealId> {
    if intent in receipts then Some(receipts[intent]) else None
  }

  /** The index after naming the rows of `done`; `receipts` are those that can be read. */
  function NamedSoFar(rows: Index, ledger: map<Intent, Status>, receipts: map<Intent, DealId>, done: set<Intent>): Index {
    map i | i in rows && (i in done ==> NamedRow(ledger, ReceiptFor(receipts, i), i, rows[i]).Some?) ::
      if i in done then NamedRow(ledger, ReceiptFor(receipts, i), i, rows[i]).value else rows[i]
  }

  lemma NamingOneMore(rows: Index, ledger: map<Intent, Status>, receipts: map<Intent, DealId>, done: set<Intent>, i: Intent)
    requires i in rows && i !in done
    ensures NamedSoFar(rows, ledger, receipts, done + {i})
         == Naming(NamedSoFar(rows, ledger, receipts, done), ledger, ReceiptFor(receipts, i), i)
  {
  }

  lemma NamingNothingNew(rows: Index, ledger: map<Intent, Status>, receipts: map<Intent, DealId>, done: set<Intent>)
    requires forall i :: i in rows && i !in done ==> rows[i].deal.Some?
    ensures NamedSoFar(rows, ledger, receipts, done) == NamedSoFar(rows, ledger, receipts, rows.Keys)
  {
  }

  method NameUnresolved(index: LiabilityIndex, ledger: map<Intent, Status>, receipts: map<Intent, DealId>)
    modifies index
    ensures index.rows == NamedSoFar(old(index.rows), ledger, receipts, old(index.rows).Keys)
  {
    ghost var before := index.rows;
    var rest := set i | i in index.rows && index.rows[i].deal.None?;
    ghost var done: set<Intent> := {};
    assert index.rows == NamedSoFar(before, ledger, receipts, {});
    while rest != {}
      invariant rest <= before.Keys && done !! rest
      invariant forall i :: i in before && i !in done && i !in rest ==> before[i].deal.Some?
      invariant index.rows == NamedSoFar(before, ledger, receipts, done)
      decreases rest
    {
      var i :| i in rest;
      NamingOneMore(before, ledger, receipts, done, i);
      assert index.rows[i] == before[i];
      NameRow(index, ledger, receipts, i);
      rest := rest - {i};
      done := done + {i};
    }
    NamingNothingNew(before, ledger, receipts, done);
  }

  /** One row's turn. */
  method NameRow(index: LiabilityIndex, ledger: map<Intent, Status>, receipts: map<Intent, DealId>, i: Intent)
    requires i in index.rows && index.rows[i].deal.None?
    modifies index
    ensures index.rows == Naming(old(index.rows), ledger, ReceiptFor(receipts, i), i)
  {
    if i !in ledger || NoDealStatus(ledger[i]) {
      index.Discard(i);
      assert index.rows == map k | k in old(index.rows) && k != i :: old(index.rows)[k];
    } else if MadeDealStatus(ledger[i]) {
      index.Attach(i, true, None);
      if i in receipts {
        index.Attach(i, false, Some(receipts[i]));
      }
    }
  }

  /** Naming loses nothing while no creation is about to sign: every deal still holding value keeps its row. */
  lemma NamingLosesNothing(w: World, receipts: map<Intent, DealId>)
    requires Inv(w) && forall i :: i in w.rows ==> !AboutToSign(w, i)
    requires forall i :: i in receipts ==> i in w.fates && w.fates[i] == Made(receipts[i])
    ensures NothingLost(w.(rows := NamedSoFar(w.rows, w.ledger, receipts, w.rows.Keys)))
  {
  }

  // ---------------------------------------------------------------------------------------
  // Recovery
  // ---------------------------------------------------------------------------------------

  /** Everything the index names is a deal the escrow has. */
  ghost predicate Known(rows: Index, deals: map<DealId, DealState>) {
    forall i :: i in rows && rows[i].deal.Some? ==> rows[i].deal.value in deals
  }

  ghost predicate Kept(rows: Index, after: Index, deals: map<DealId, DealState>) {
    && (forall i :: i in after ==> i in rows && after[i] == rows[i])
    && (forall i :: i in rows && i !in after ==>
         rows[i].deal.Some? && rows[i].deal.value in deals && Liabilities.Over(deals[rows[i].deal.value]))
  }

  /** Deals move only along the contract's own edges, and one that is over stays as it is. */
  ghost predicate Moved(before: map<DealId, DealState>, after: map<DealId, DealState>) {
    && after.Keys == before.Keys
    && forall d :: d in before ==> after[d] == before[d] || (after[d] == RecoveredTo(before[d]) && Follows(before[d], after[d]))
  }

  /**
   * `_recover_deals`: drive each deal to its end and strike it off, stopping at the first whose
   * action `works` says is not included.
   */
  method RecoverDeals(escrow: Escrow, index: LiabilityIndex, ids: set<DealId>, works: DealId -> bool) returns (recovered: bool)
    requires ids <= escrow.deals.Keys && Known(index.rows, escrow.deals)
    modifies escrow, index
    ensures Moved(old(escrow.deals), escrow.deals) && Kept(old(index.rows), index.rows, escrow.deals)
    ensures recovered ==> forall d :: d in ids ==> Liabilities.Over(escrow.deals[d])
    ensures recovered ==> forall i :: i in index.rows && index.rows[i].deal.Some? ==> index.rows[i].deal.value !in ids
    ensures !recovered ==> exists d :: d in ids && !works(d) && !Liabilities.Over(old(escrow.deals)[d])
  {
    ghost var rows, deals := index.rows, escrow.deals;
    var rest := ids;
    while rest != {}
      invariant rest <= ids
      invariant Moved(deals, escrow.deals) && Kept(rows, index.rows, escrow.deals)
      invariant forall d :: d in rest ==> escrow.deals[d] == deals[d]
      invariant forall d :: d in ids && d !in rest ==> Liabilities.Over(escrow.deals[d])
      invariant forall i :: i in index.rows && index.rows[i].deal.Some? && index.rows[i].deal.value in ids ==> index.rows[i].deal.value in rest
      decreases rest
    {
      var d :| d in rest;
      if !Liabilities.Over(escrow.deals[d]) {
        if !works(d) {
          return false;
        }
        escrow.deals := escrow.deals[d := RecoveredTo(escrow.deals[d])];
      }
      index.Close(d);
      rest := rest - {d};
    }
    return true;
  }

  /** `_open_liabilities` for the whole deployment. */
  method OpenDeals(index: LiabilityIndex) returns (ids: set<DealId>)
    ensures forall d :: d in ids <==> exists i :: i in index.rows && index.rows[i].deal == Some(d)
  {
    var rest := index.rows.Keys;
    ids := {};
    while rest != {}
      invariant rest <= index.rows.Keys
      invariant forall d :: d in ids ==> exists i :: i in index.rows && index.rows[i].deal == Some(d)
      invariant forall i :: i in index.rows && i !in rest && index.rows[i].deal.Some? ==> index.rows[i].deal.value in ids
      decreases rest
    {
      var i :| i in rest;
      if index.rows[i].deal.Some? {
        ids := ids + {index.rows[i].deal.value};
      }
      rest := rest - {i};
    }
  }

  // ---------------------------------------------------------------------------------------
  // The reclaim
  // ---------------------------------------------------------------------------------------

  /** Every row of the index that can have a deal behind it has a receipt that can be read. */
  ghost predicate AllReadable(rows: Index, ledger: map<Intent, Status>, receipts: map<Intent, DealId>) {
    forall i :: i in rows && rows[i].deal.None? && i in ledger && MadeDealStatus(ledger[i]) ==> i in receipts
  }

  /** The deal a row stands for, if its id is known or can be read. */
  function DealOf(row: Liability, receipts: map<Intent, DealId>, i: Intent): Option<DealId> {
    if row.deal.Some? then row.deal else ReceiptFor(receipts, i)
  }

  /** A row may go only if nothing was signed for it, its creation made no deal, or its deal is over. */
  ghost predicate GoneForCause(
    rows: Index, after: Index, ledger: map<Intent, Status>, receipts: map<Intent, DealId>, deals: map<DealId, DealState>)
  {
    forall i :: i in rows && i !in after ==>
      || (rows[i].deal.None? && (i !in ledger || NoDealStatus(ledger[i])))
      || (var deal := DealOf(rows[i], receipts, i); deal.Some? && deal.value in deals && Liabilities.Over(deals[deal.value]))
  }

  /** Every deal the index named before is over. */
  ghost predicate NamedDealsOver(rows: Index, deals: map<DealId, DealState>) {
    forall i :: i in rows && rows[i].deal.Some? ==> rows[i].deal.value in deals && Liabilities.Over(deals[rows[i].deal.value])
  }

  /** `_run_reclaim` past the collection: refuse while any row holds a wallet, name what was inherited, and close it. */
  method RunReclaim(
    escrow: Escrow, index: LiabilityIndex, ledger: map<Intent, Status>, receipts: map<Intent, DealId>, works: DealId -> bool)
    returns (succeeded: bool)
    requires Known(index.rows, escrow.deals)
    requires forall i :: i in receipts ==> receipts[i] in escrow.deals
    modifies escrow, index
    ensures Moved(old(escrow.deals), escrow.deals)
    ensures GoneForCause(old(index.rows), index.rows, ledger, receipts, escrow.deals)
    ensures succeeded ==> forall i :: i in ledger ==> Freed(ledger[i])
    ensures succeeded && AllReadable(old(index.rows), ledger, receipts) ==> index.rows == map[]
    ensures succeeded ==> NamedDealsOver(old(index.rows), escrow.deals)
    ensures !AllFreed(ledger) ==> !succeeded && index.rows == old(index.rows) && escrow.deals == old(escrow.deals)
    ensures AllFreed(ledger) ==> Kept(NamedSoFar(old(index.rows), ledger, receipts, old(index.rows).Keys), index.rows, escrow.deals)
    ensures AllFreed(ledger) && !succeeded ==> exists d :: d in old(escrow.deals) && !works(d) && !Liabilities.Over(old(escrow.deals)[d])
  {
    if !AllFreed(ledger) {
      return false;
    }
    ghost var rows := index.rows;
    NameUnresolved(index, ledger, receipts);
    ghost var named := index.rows;
    NamingKeepsKnown(rows, ledger, receipts, escrow.deals);
    var inherited := OpenDeals(index);
    succeeded := RecoverDeals(escrow, index, inherited, works);
    WhyRowsGo(rows, named, index.rows, ledger, receipts, escrow.deals);
    if succeeded {
      NothingIsLeft(rows, named, index.rows, ledger, receipts, escrow.deals, inherited);
    }
  }

  lemma NamingKeepsKnown(rows: Index, ledger: map<Intent, Status>, receipts: map<Intent, DealId>, deals: map<DealId, DealState>)
    requires Known(rows, deals) && forall i :: i in receipts ==> receipts[i] in deals
    ensures Known(NamedSoFar(rows, ledger, receipts, rows.Keys), deals)
  {
  }

  lemma NothingIsLeft(
    rows: Index, named: Index, after: Index, ledger: map<Intent, Status>, receipts: map<Intent, DealId>,
    deals: map<DealId, DealState>, inherited: set<DealId>)
    requires named == NamedSoFar(rows, ledger, receipts, rows.Keys) && Kept(named, after, deals)
    requires AllFreed(ledger) && forall d :: d in inherited ==> d in deals && Liabilities.Over(deals[d])
    requires forall i :: i in named && named[i].deal.Some? ==> named[i].deal.value in inherited
    requires forall i :: i in after && after[i].deal.Some? ==> after[i].deal.value !in inherited
    ensures NamedDealsOver(rows, deals)
    ensures AllReadable(rows, ledger, receipts) ==> after == map[]
  {
    forall i | i in rows && rows[i].deal.Some? ensures rows[i].deal.value in inherited {
      assert i in named && named[i] == rows[i];
    }
    if AllReadable(rows, ledger, receipts) {
      assert forall i :: i in named ==> named[i].deal.Some?;
      assert after.Keys == {};
    }
  }

  predicate AllFreed(ledger: map<Intent, Status>) {
    forall i :: i in ledger ==> Freed(ledger[i])
  }

  lemma WhyRowsGo(
    rows: Index, named: Index, after: Index, ledger: map<Intent, Status>, receipts: map<Intent, DealId>, deals: map<DealId, DealState>)
    requires named == NamedSoFar(rows, ledger, receipts, rows.Keys) && Kept(named, after, deals)
    ensures GoneForCause(rows, after, ledger, receipts, deals)
  {
  }
}
