/**
 * The durable record of what has been signed and what became of it: the status graph and
 * `TransactionLedger` of wrasse/chain.py.
 *
 * Each write is one SQLite transaction, so it is one step here.
 */
module Ledger {
  import opened Chain
  import opened Constants
  import opened Numeric

  datatype Status =
    | Signed
    | SendAttempted
    | Pending
    | IncludedSuccess
    | IncludedReverted
    | ConfirmedSuccess
    | ConfirmedReverted
    | Reorged
    | NonceConflictPending
    | NonceConsumedOrReplaced
    | Stuck
    | Unbroadcast

  /** A row that is over: no status follows these. */
  predicate Terminal(s: Status) {
    s.ConfirmedSuccess? || s.ConfirmedReverted? || s.NonceConsumedOrReplaced? || s.Unbroadcast?
  }

  /** The row counts as having used its number, even if its block may still be replaced. */
  predicate Settled(s: Status) {
    s.IncludedSuccess? || s.IncludedReverted? || s.ConfirmedSuccess? || s.ConfirmedReverted? || s.NonceConsumedOrReplaced?
  }

  /** The row has given its nonce back. */
  predicate Released(s: Status) {
    s.Unbroadcast?
  }

  /** `ALLOWED_TRANSITIONS`. */
  predicate Allowed(from: Status, to: Status) {
    match from
    case Signed => to.SendAttempted? || to.Stuck? || to.Unbroadcast?
    case SendAttempted => ReachableWhileSending(to) || to.NonceConflictPending?
    case Pending => ReachableWhileSending(to) || to.NonceConflictPending?
    case NonceConflictPending => ReachableWhileSending(to) || to.NonceConflictPending?
    case Reorged => ReachableWhileSending(to)
    case Stuck => ReachableWhileSending(to)
    case IncludedSuccess => to.IncludedSuccess? || to.ConfirmedSuccess? || to.Reorged?
    case IncludedReverted => to.IncludedReverted? || to.ConfirmedReverted? || to.Reorged?
    case _ => false
  }

  predicate ReachableWhileSending(to: Status) {
    || to.SendAttempted? || to.Pending? || to.IncludedSuccess? || to.IncludedReverted?
    || to.NonceConsumedOrReplaced? || to.Stuck?
  }

  /** Neither over nor in a block. */
  predicate StillWaiting(s: Status) {
    !Terminal(s) && !s.IncludedSuccess? && !s.IncludedReverted?
  }

  /**
   * The graph by where it leads. Nothing becomes `signed` again, and the graph gives a nonce back
   * only before any attempt. Any waiting row may be tried or found stuck; only one that has been
   * tried can be pending, mined or replaced, and a conflict is not learned of one already stuck or
   * reorganised. A block is lost or settled only by a row that was in one, with its own outcome.
   */
  lemma WhatLeadsWhere(from: Status)
    ensures !Allowed(from, Signed)
    ensures Allowed(from, Unbroadcast) <==> from.Signed?
    ensures Allowed(from, SendAttempted) <==> StillWaiting(from)
    ensures Allowed(from, Stuck) <==> StillWaiting(from)
    ensures Allowed(from, Pending) <==> StillWaiting(from) && !from.Signed?
    ensures Allowed(from, NonceConsumedOrReplaced) <==> StillWaiting(from) && !from.Signed?
    ensures Allowed(from, NonceConflictPending) <==> StillWaiting(from) && !from.Signed? && !from.Stuck? && !from.Reorged?
    ensures Allowed(from, IncludedSuccess) <==> from.IncludedSuccess? || (StillWaiting(from) && !from.Signed?)
    ensures Allowed(from, IncludedReverted) <==> from.IncludedReverted? || (StillWaiting(from) && !from.Signed?)
    ensures Allowed(from, ConfirmedSuccess) <==> from.IncludedSuccess?
    ensures Allowed(from, ConfirmedReverted) <==> from.IncludedReverted?
    ensures Allowed(from, Reorged) <==> from.IncludedSuccess? || from.IncludedReverted?
    ensures Terminal(from) <==> forall to :: !Allowed(from, to)
  {
    assert StillWaiting(from) ==> Allowed(from, Stuck);
    assert from.IncludedSuccess? || from.IncludedReverted? ==> Allowed(from, Reorged);
  }

  // ---------------------------------------------------------------------------------------
  // Rows
  // ---------------------------------------------------------------------------------------

  /** The primary key. An intent is a base name and, for deal actions, which attempt at it. */
  datatype Key = Key(account: Account, contract: Address, intent: nat, attempt: nat)

  datatype Row = Row(nonce: nat, acceptBy: nat, raw: Raw, status: Status, block: Option<BlockRef>, attempts: nat)

  datatype SignedIntent = SignedIntent(nonce: nat, acceptBy: nat, raw: Raw)

  type Rows = map<Key, Row>

  predicate Live(row: Row) {
    !Released(row.status)
  }

  /** Nonces that count against the next one. */
  function LiveNonces(rows: Rows, account: Account): set<nat> {
    set k | k in rows && k.account == account && Live(rows[k]) :: rows[k].nonce
  }

  /** Rows whose nonce is neither spent nor given back. */
  function Blocking(rows: Rows, account: Account): set<Key> {
    set k | k in rows && k.account == account && !Settled(rows[k].status) && !Released(rows[k].status)
  }

  /** The number after the largest of these. */
  ghost function Top(nonces: set<nat>): nat {
    if nonces == {} then 0
    else
      var n :| n in nonces;
      var above := Top(nonces - {n});
      if above < n + 1 then n + 1 else above
  }

  lemma {:induction false} TopIsAbove(nonces: set<nat>)
    ensures forall n :: n in nonces ==> n < Top(nonces)
    ensures nonces != {} ==> Top(nonces) >= 1 && Top(nonces) - 1 in nonces
    ensures nonces == {} ==> Top(nonces) == 0
  {
    if nonces != {} {
      var n :| n in nonces && Top(nonces) == (if Top(nonces - {n}) < n + 1 then n + 1 else Top(nonces - {n}));
      var rest := nonces - {n};
      TopIsAbove(rest);
      forall m | m in nonces ensures m < Top(nonces) {
        assert m == n || m in rest;
      }
    }
  }

  // ---------------------------------------------------------------------------------------
  // The writes
  // ---------------------------------------------------------------------------------------

  datatype LedgerError =
    | WalletBusy
    | SignerRefused
    | WrongNonce
    | NonceTaken
    | DuplicateHash
    | Vanished
    | IllegalTransition
    | StaleStatus

  datatype Outcome =
    | Created(row: Row)
    | Existing(row: Row)
    | Refused(error: LedgerError)

  /** The nonce `record_signed` allocates. */
  ghost function NextNonce(rows: Rows, account: Account, chainNonce: nat): nat {
    Max(chainNonce, Top(LiveNonces(rows, account)))
  }

  /** What `record_signed` answers, given the count the chain reports and what the signer does with a nonce. */
  ghost function RecordOutcome(rows: Rows, key: Key, chainNonce: nat, sign: nat -> Option<SignedIntent>): Outcome {
    var nonce := NextNonce(rows, key.account, chainNonce);
    var signed := sign(nonce);
    if key in rows then Existing(rows[key])
    else if Blocking(rows, key.account) != {} then Refused(WalletBusy)
    else if signed.None? then Refused(SignerRefused)
    else if signed.value.nonce != nonce then Refused(WrongNonce)
    else if nonce in LiveNonces(rows, key.account) then Refused(NonceTaken)
    else if HashTaken(rows, key.account.chainId, signed.value.raw) then Refused(DuplicateHash)
    else Created(Row(nonce, signed.value.acceptBy, signed.value.raw, Signed, None, 0))
  }

  predicate HashTaken(rows: Rows, chainId: nat, raw: Raw) {
    exists k :: k in rows && k.account.chainId == chainId && rows[k].raw == raw
  }

  ghost function AfterRecord(rows: Rows, key: Key, outcome: Outcome): Rows {
    if outcome.Created? then rows[key := outcome.row] else rows
  }

  /** `_write_status`: a compare-and-swap on the status alone. */
  function WriteStatus(rows: Rows, key: Key, seen: Status, status: Status, block: Option<BlockRef>, bump: bool)
    : Result<Row, LedgerError>
  {
    if key !in rows then Err(Vanished)
    else if rows[key].status != seen then Err(StaleStatus)
    else Ok(rows[key].(status := status, block := block, attempts := rows[key].attempts + if bump then 1 else 0))
  }

  /** `set_status`: the graph is asked about the caller's snapshot, then the swap. */
  function SetStatusResult(rows: Rows, key: Key, seen: Status, status: Status, block: Option<BlockRef>, bump: bool)
    : Result<Row, LedgerError>
  {
    if Allowed(seen, status) then WriteStatus(rows, key, seen, status, block, bump) else Err(IllegalTransition)
  }

  /** `mark_unbroadcast`: both halves of its precondition read the caller's snapshot. */
  function UnbroadcastResult(rows: Rows, key: Key, seen: Status, seenAttempts: nat): Result<Row, LedgerError> {
    if seen == SendAttempted && seenAttempts == 1 then WriteStatus(rows, key, seen, Unbroadcast, None, false)
    else Err(IllegalTransition)
  }

  function AfterWrite(rows: Rows, key: Key, result: Result<Row, LedgerError>): Rows {
    if result.Ok? then rows[key := result.value] else rows
  }

  class TransactionLedger {
    var rows: Rows

    constructor ()
      ensures rows == map[]
    {
      rows := map[];
    }

    /** `_find`. */
    method Find(key: Key) returns (row: Option<Row>)
      ensures row == if key in rows then Some(rows[key]) else None
    {
      return if key in rows then Some(rows[key]) else None;
    }

    /** `_blocking_row`. */
    method BlockingRow(account: Account) returns (row: Option<Row>)
      ensures row.None? <==> Blocking(rows, account) == {}
      ensures row.Some? ==> exists k :: k in Blocking(rows, account) && rows[k] == row.value
    {
      var rest := rows.Keys;
      while rest != {}
        invariant rest <= rows.Keys
        invariant Blocking(rows, account) <= rest
        decreases rest
      {
        var k :| k in rest;
        if k.account == account && !Settled(rows[k].status) && !Released(rows[k].status) {
          assert k in Blocking(rows, account);
          return Some(rows[k]);
        }
        rest := rest - {k};
      }
      return None;
    }

    /** The number after the highest one held, as the `MAX(nonce)` query gives it. */
    method NonceAfterHighest(account: Account) returns (next: nat)
      ensures next == Top(LiveNonces(rows, account))
    {
      var rest := rows.Keys;
      next := 0;
      while rest != {}
        invariant rest <= rows.Keys
        invariant forall k :: k in rows && k !in rest && k.account == account && Live(rows[k]) ==> rows[k].nonce < next
        invariant next == 0 || next - 1 in LiveNonces(rows, account)
        decreases rest
      {
        var k :| k in rest;
        if k.account == account && Live(rows[k]) && next <= rows[k].nonce {
          assert rows[k].nonce in LiveNonces(rows, account);
          next := rows[k].nonce + 1;
        }
        rest := rest - {k};
      }
      TopIsAbove(LiveNonces(rows, account));
    }

    /** `record_signed`: look again, allocate, sign, and commit before anything is sent. */
    method RecordSigned(key: Key, chainNonce: nat, sign: nat -> Option<SignedIntent>) returns (outcome: Outcome)
      modifies this
      ensures outcome == RecordOutcome(old(rows), key, chainNonce, sign)
      ensures rows == AfterRecord(old(rows), key, outcome)
    {
      if key in rows {
        return Existing(rows[key]);
      }
      var blocking := BlockingRow(key.account);
      if blocking.Some? {
        return Refused(WalletBusy);
      }
      var highest := NonceAfterHighest(key.account);
      var nonce := Max(chainNonce, highest);
      var signed := sign(nonce);
      if signed.None? {
        return Refused(SignerRefused);
      }
      if signed.value.nonce != nonce {
        return Refused(WrongNonce);
      }
      if nonce in LiveNonces(rows, key.account) {
        return Refused(NonceTaken);
      }
      if HashTaken(rows, key.account.chainId, signed.value.raw) {
        return Refused(DuplicateHash);
      }
      var row := Row(nonce, signed.value.acceptBy, signed.value.raw, Signed, None, 0);
      rows := rows[key := row];
      return Created(row);
    }

    /** `set_status` on the snapshot `seen`. */
    method SetStatus(key: Key, seen: Row, status: Status, block: Option<BlockRef>, bump: bool) returns (result: Result<Row, LedgerError>)
      modifies this
      ensures result == SetStatusResult(old(rows), key, seen.status, status, block, bump)
      ensures rows == AfterWrite(old(rows), key, result)
    {
      if !Allowed(seen.status, status) {
        return Err(IllegalTransition);
      }
      result := CompareAndSwap(key, seen, status, block, bump);
    }

    /** `mark_unbroadcast` on the snapshot `seen`. */
    method MarkUnbroadcast(key: Key, seen: Row) returns (result: Result<Row, LedgerError>)
      modifies this
      ensures result == UnbroadcastResult(old(rows), key, seen.status, seen.attempts)
      ensures rows == AfterWrite(old(rows), key, result)
      ensures result.Ok? <==>
        seen.status.SendAttempted? && seen.attempts == 1 && key in old(rows) && old(rows)[key].status.SendAttempted?
      ensures result.Ok? ==> rows == old(rows)[key := old(rows)[key].(status := Unbroadcast, block := None)]
    {
      if seen.status != SendAttempted || seen.attempts != 1 {
        return Err(IllegalTransition);
      }
      result := CompareAndSwap(key, seen, Unbroadcast, None, false);
    }

    /** `_write_status`. */
    method CompareAndSwap(key: Key, seen: Row, status: Status, block: Option<BlockRef>, bump: bool)
      returns (result: Result<Row, LedgerError>)
      modifies this
      ensures result == WriteStatus(old(rows), key, seen.status, status, block, bump)
      ensures rows == AfterWrite(old(rows), key, result)
    {
      if key !in rows {
        return Err(Vanished);
      }
      var current := rows[key];
      if current.status != seen.status {
        return Err(StaleStatus);
      }
      var written := current.(status := status, block := block, attempts := current.attempts + if bump then 1 else 0);
      rows := rows[key := written];
      return Ok(written);
    }
  }
}
