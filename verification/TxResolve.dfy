/**
 * `tx-resolve`, the only command that writes what the chain says and the only one that resends:
 * the per-row body of `_tx_resolve` in wrasse/cli.py.
 */
module TxResolve {
  import opened Chain
  import opened Constants
  import opened Ledger
  import opened Resolver

  /** What a node does with bytes it is handed. */
  datatype SendAnswer = Accepted | NonceTooLow | InDoubt | TurnedAway

  /** Everything one pass over one row meets: what it reads, and what the operator allowed. */
  datatype Pass = Pass(
    resolving: View,
    fallback: Node,
    confirming: View,
    clock: Clock,
    rebroadcast: bool,
    ours: bool,
    sendTime: Option<nat>,
    authorised: bool,
    answer: SendAnswer)

  datatype Trouble = FromChain(chain: ResolveError) | FromLedger(ledger: LedgerError) | NotAuthorised

  datatype Report =
    /** Nothing was written. */
    | Left
    | Written(row: Row)
    | Resent(row: Row)
    | Raised(trouble: Trouble)

  datatype Ended = Ended(rows: Rows, report: Report)

  function StatusOf(answer: SendAnswer): Status {
    match answer
    case Accepted => Pending
    case NonceTooLow => NonceConflictPending
    case InDoubt => SendAttempted
    case TurnedAway => Stuck
  }

  predicate IsIncluded(s: Status) {
    s.IncludedSuccess? || s.IncludedReverted?
  }

  function Writing(rows: Rows, key: Key, seen: Row, status: Status, block: Option<BlockRef>, bump: bool): Ended {
    var result := SetStatusResult(rows, key, seen.status, status, block, bump);
    Ended(AfterWrite(rows, key, result), if result.Ok? then Written(result.value) else Raised(FromLedger(result.error)))
  }

  /** An included row is judged by `confirm`. */
  function Confirming(rows: Rows, key: Key, seen: Row, view: View): Ended {
    var verdict := Confirm(seen, view);
    if verdict.Err? then Ended(rows, Raised(FromChain(verdict.error)))
    else if verdict.value.Unknown? || verdict.value.status == seen.status then Ended(rows, Left)
    else Writing(rows, key, seen, verdict.value.status, verdict.value.block, false)
  }

  /** The resend: the preconditions of a first send, the attempt, the bytes, and what became of them. */
  function Resending(rows: Rows, key: Key, seen: Row, pass: Pass): Ended {
    if pass.clock.chainNow.None? || !pass.rebroadcast || !pass.ours then Ended(rows, Left)
    else if pass.sendTime.None? || PastDeadline(seen, pass.sendTime.value) then Writing(rows, key, seen, Stuck, None, false)
    else if !pass.authorised then Ended(rows, Raised(NotAuthorised))
    else
      var marked := Writing(rows, key, seen, SendAttempted, None, true);
      if !marked.report.Written? then marked
      else
        var answered := Writing(marked.rows, key, marked.report.row, StatusOf(pass.answer), None, false);
        if answered.report.Written? then Ended(answered.rows, Resent(answered.report.row)) else answered
  }

  /** One row's turn, from the snapshot `seen`. */
  function Resolving(rows: Rows, key: Key, seen: Row, pass: Pass): Ended {
    if Terminal(seen.status) then Ended(rows, Left)
    else if IsIncluded(seen.status) then Confirming(rows, key, seen, pass.confirming)
    else
      var verdict := Resolve(seen, pass.resolving, pass.fallback, pass.clock);
      if verdict.Err? then Ended(rows, Raised(FromChain(verdict.error)))
      else if verdict.value.Unknown? then Resending(rows, key, seen, pass)
      else if verdict.value.status == seen.status then Ended(rows, Left)
      else
        var written := Writing(rows, key, seen, verdict.value.status, verdict.value.block, false);
        if written.report.Written? && IsIncluded(written.report.row.status) then
          Confirming(written.rows, key, written.report.row, pass.confirming)
        else
          written
  }

  /** The command's body for one row. */
  method ResolveRow(ledger: TransactionLedger, key: Key, seen: Row, pass: Pass) returns (report: Report)
    modifies ledger
    ensures Ended(ledger.rows, report) == Resolving(old(ledger.rows), key, seen, pass)
  {
    if Terminal(seen.status) {
      return Left;
    }
    var row := seen;
    if !IsIncluded(row.status) {
      var verdict := Resolve(row, pass.resolving, pass.fallback, pass.clock);
      if verdict.Err? {
        return Raised(FromChain(verdict.error));
      }
      if verdict.value.Unknown? {
        report := Resend(ledger, key, row, pass);
        return;
      }
      if verdict.value.status == row.status {
        return Left;
      }
      var written := ledger.SetStatus(key, row, verdict.value.status, verdict.value.block, false);
      if written.Err? {
        return Raised(FromLedger(written.error));
      }
      row := written.value;
      if !IsIncluded(row.status) {
        return Written(row);
      }
    }
    report := ConfirmRow(ledger, key, row, pass.confirming);
  }

  method ConfirmRow(ledger: TransactionLedger, key: Key, seen: Row, view: View) returns (report: Report)
    modifies ledger
    ensures Ended(ledger.rows, report) == Confirming(old(ledger.rows), key, seen, view)
  {
    var settled := Confirm(seen, view);
    if settled.Err? {
      return Raised(FromChain(settled.error));
    }
    if settled.value.Unknown? || settled.value.status == seen.status {
      return Left;
    }
    var written := ledger.SetStatus(key, seen, settled.value.status, settled.value.block, false);
    return if written.Ok? then Written(written.value) else Raised(FromLedger(written.error));
  }

  method Resend(ledger: TransactionLedger, key: Key, seen: Row, pass: Pass) returns (report: Report)
    modifies ledger
    ensures Ended(ledger.rows, report) == Resending(old(ledger.rows), key, seen, pass)
  {
    if pass.clock.chainNow.None? || !pass.rebroadcast || !pass.ours {
      return Left;
    }
    if pass.sendTime.None? || PastDeadline(seen, pass.sendTime.value) {
      var stuck := ledger.SetStatus(key, seen, Stuck, None, false);
      return if stuck.Ok? then Written(stuck.value) else Raised(FromLedger(stuck.error));
    }
    if !pass.authorised {
      return Raised(NotAuthorised);
    }
    var marked := ledger.SetStatus(key, seen, SendAttempted, None, true);
    if marked.Err? {
      return Raised(FromLedger(marked.error));
    }
    var answered := ledger.SetStatus(key, marked.value, StatusOf(pass.answer), None, false);
    return if answered.Ok? then Resent(answered.value) else Raised(FromLedger(answered.error));
  }

  // ---------------------------------------------------------------------------------------
  // Resend discipline
  // ---------------------------------------------------------------------------------------

  /** `resolve` permits a resend exactly when there is no trace of the bytes and time is left for them. */
  lemma UnknownIff(row: Row, primary: View, fallback: Node, clock: Clock)
    ensures Resolve(row, primary, fallback, clock) == Ok(Unknown) <==>
      && NoTrace(primary, row.raw, row.nonce)
      && (row.acceptBy == NO_DEADLINE
          || ((clock.chainNow.None? || clock.chainNow.value < row.acceptBy) && clock.age <= clock.stuckAfter))
  {
  }

  lemma ResendingIff(rows: Rows, key: Key, pass: Pass)
    requires key in rows && !Terminal(rows[key].status) && !IsIncluded(rows[key].status)
    ensures Resending(rows, key, rows[key], pass).report.Resent? <==>
      Willing(pass) && !PastDeadline(rows[key], pass.sendTime.value)
  {
  }

  /** A pass in which everything a resend asks for is in place. */
  predicate Willing(pass: Pass) {
    pass.clock.chainNow.Some? && pass.sendTime.Some? && pass.rebroadcast && pass.ours && pass.authorised
  }

  /** Exactly when bytes are sent again: never on a trace of them, never past their deadline, never unasked. */
  lemma ResentIff(rows: Rows, key: Key, pass: Pass)
    requires key in rows
    ensures var seen := rows[key];
      Resolving(rows, key, seen, pass).report.Resent? <==>
        && !Terminal(seen.status) && !IsIncluded(seen.status)
        && Willing(pass)
        && NoTrace(pass.resolving, seen.raw, seen.nonce)
        && (seen.acceptBy == NO_DEADLINE
            || (pass.clock.chainNow.value < seen.acceptBy && pass.sendTime.value < seen.acceptBy
                && pass.clock.age <= pass.clock.stuckAfter))
  {
    var seen := rows[key];
    if !Terminal(seen.status) && !IsIncluded(seen.status) {
      UnknownIff(seen, pass.resolving, pass.fallback, pass.clock);
      ResendingIff(rows, key, pass);
    }
    OnlyResendingResends(rows, key, seen, pass);
  }

  lemma OnlyResendingResends(rows: Rows, key: Key, seen: Row, pass: Pass)
    ensures Resolving(rows, key, seen, pass).report.Resent? <==>
      && !Terminal(seen.status) && !IsIncluded(seen.status)
      && Resolve(seen, pass.resolving, pass.fallback, pass.clock) == Ok(Unknown)
      && Resending(rows, key, seen, pass).report.Resent?
  {
  }

  /** No other row moved, and no bytes changed. */
  ghost predicate OnlyRow(rows: Rows, key: Key, after: Rows) {
    && after.Keys == rows.Keys
    && (forall k :: k in rows && k != key ==> after[k] == rows[k])
    && (key in rows ==>
         && after[key].raw == rows[key].raw && after[key].nonce == rows[key].nonce && after[key].acceptBy == rows[key].acceptBy
         && rows[key].attempts <= after[key].attempts)
  }

  lemma WritingTouchesOneRow(rows: Rows, key: Key, seen: Row, status: Status, block: Option<BlockRef>, bump: bool)
    ensures OnlyRow(rows, key, Writing(rows, key, seen, status, block, bump).rows)
  {
  }

  lemma TwoWrites(rows: Rows, key: Key, between: Rows, after: Rows)
    requires OnlyRow(rows, key, between) && OnlyRow(between, key, after)
    ensures OnlyRow(rows, key, after)
  {
  }

  lemma ConfirmingTouchesOneRow(rows: Rows, key: Key, seen: Row, view: View)
    ensures OnlyRow(rows, key, Confirming(rows, key, seen, view).rows)
  {
  }

  lemma ResendingTouchesOneRow(rows: Rows, key: Key, seen: Row, pass: Pass)
    ensures OnlyRow(rows, key, Resending(rows, key, seen, pass).rows)
  {
    WritingTouchesOneRow(rows, key, seen, Stuck, None, false);
    WritingTouchesOneRow(rows, key, seen, SendAttempted, None, true);
    var marked := Writing(rows, key, seen, SendAttempted, None, true);
    if marked.report.Written? {
      WritingTouchesOneRow(marked.rows, key, marked.report.row, StatusOf(pass.answer), None, false);
      TwoWrites(rows, key, marked.rows, Writing(marked.rows, key, marked.report.row, StatusOf(pass.answer), None, false).rows);
    }
  }

  /** Whatever a pass decides, it touches one row and never that row's bytes. */
  lemma APassTouchesOneRow(rows: Rows, key: Key, seen: Row, pass: Pass)
    ensures OnlyRow(rows, key, Resolving(rows, key, seen, pass).rows)
  {
    ConfirmingTouchesOneRow(rows, key, seen, pass.confirming);
    ResendingTouchesOneRow(rows, key, seen, pass);
    var verdict := Resolve(seen, pass.resolving, pass.fallback, pass.clock);
    if verdict.Ok? && verdict.value.Known? {
      WritingTouchesOneRow(rows, key, seen, verdict.value.status, verdict.value.block, false);
      var written := Writing(rows, key, seen, verdict.value.status, verdict.value.block, false);
      if written.report.Written? {
        ConfirmingTouchesOneRow(written.rows, key, written.report.row, pass.confirming);
        TwoWrites(rows, key, written.rows, Confirming(written.rows, key, written.report.row, pass.confirming).rows);
      }
    }
  }

  /** An untraced row with no deadline may always be resent: the verdict permits it and the graph admits it, from every state it can wait in. */
  lemma ResendLeavesItWaiting(rows: Rows, key: Key, pass: Pass)
    requires key in rows && !Terminal(rows[key].status) && !IsIncluded(rows[key].status) && Willing(pass)
    requires rows[key].acceptBy == NO_DEADLINE && NoTrace(pass.resolving, rows[key].raw, rows[key].nonce)
    ensures var once := Resolving(rows, key, rows[key], pass);
      && once.report.Resent? && key in once.rows
      && once.rows[key].status == StatusOf(pass.answer)
      && once.rows[key].raw == rows[key].raw && once.rows[key].nonce == rows[key].nonce
  {
  }

  /** A row whose bytes a node has a receipt for is settled by the next pass, or found reorganised within it. */
  lemma AReceiptSettles(rows: Rows, key: Key, pass: Pass)
    requires key in rows && !Terminal(rows[key].status) && !IsIncluded(rows[key].status) && !rows[key].status.Signed?
    requires Holds(pass.resolving.blocks, rows[key].raw)
    ensures var after := Resolving(rows, key, rows[key], pass).rows;
      && key in after
      && (Settled(after[key].status) || after[key].status.Reorged?)
      && (pass.confirming == pass.resolving ==> Settled(after[key].status))
  {
  }

  /**
   * One row at the chain's own count, with no deadline: whatever state it waits in, a willing pass
   * resends it, the chain can then include it, and a pass over that chain settles it.
   */
  lemma AWayOutAlwaysExists(rows: Rows, key: Key, first: Pass, second: Pass, salt: nat, succeeded: bool)
    requires key in rows && !Terminal(rows[key].status) && !IsIncluded(rows[key].status) && Willing(first)
    requires rows[key].acceptBy == NO_DEADLINE && rows[key].raw.nonce == rows[key].nonce
    requires NoTrace(first.resolving, rows[key].raw, rows[key].nonce) && Chain.Valid(first.resolving.blocks)
    requires Latest(first.resolving, rows[key].raw.account) == rows[key].nonce
    requires second.resolving.blocks == first.resolving.blocks + [Block(salt, [Mined(rows[key].raw, succeeded)])]
    requires second.confirming == second.resolving
    ensures Chain.Valid(second.resolving.blocks)
    ensures var once := Resolving(rows, key, rows[key], first);
      && once.report.Resent? && key in once.rows
      && var twice := Resolving(once.rows, key, once.rows[key], second);
         key in twice.rows && Settled(twice.rows[key].status)
  {
    var raw := rows[key].raw;
    IncludingItIsValid(first.resolving.blocks, raw, salt, succeeded);
    ResendLeavesItWaiting(rows, key, first);
    assert Txs(second.resolving.blocks)[|Txs(first.resolving.blocks)|].raw == raw;
    AReceiptSettles(Resolving(rows, key, rows[key], first).rows, key, second);
  }

  lemma {:induction false} IncludingItIsValid(blocks: Blocks, raw: Raw, salt: nat, succeeded: bool)
    requires Chain.Valid(blocks) && Count(blocks, raw.account) == raw.nonce
    ensures Chain.Valid(blocks + [Block(salt, [Mined(raw, succeeded)])])
    ensures Txs(blocks + [Block(salt, [Mined(raw, succeeded)])]) == Txs(blocks) + [Mined(raw, succeeded)]
  {
    var longer := blocks + [Block(salt, [Mined(raw, succeeded)])];
    assert longer[..|blocks|] == blocks;
    var txs := Txs(longer);
    forall p | 0 <= p < |txs| ensures txs[p].raw.nonce == CountIn(txs[..p], txs[p].raw.account) {
      assert p < |Txs(blocks)| ==> txs[..p] == Txs(blocks)[..p];
      assert p == |Txs(blocks)| ==> txs[..p] == Txs(blocks);
    }
  }

  /** The pass found time to be up for bytes with no trace: their deadline is behind a clock it could read, or the row is too old for its deadline to be waited for. */
  predicate TimeIsUp(row: Row, clock: Clock) {
    && row.acceptBy != 0
    && ((clock.chainNow.Some? && row.acceptBy <= clock.chainNow.value) || clock.stuckAfter < clock.age)
  }

  /** A row whose time is up ends stuck, whatever state it waits in and whatever the operator allowed: nothing is sent, and nothing refuses it. */
  lemma AnExpiredRowEndsStuck(rows: Rows, key: Key, pass: Pass)
    requires key in rows && !Terminal(rows[key].status) && !IsIncluded(rows[key].status)
    requires NoTrace(pass.resolving, rows[key].raw, rows[key].nonce) && TimeIsUp(rows[key], pass.clock)
    ensures var ended := Resolving(rows, key, rows[key], pass);
      && key in ended.rows && ended.rows[key].status.Stuck?
      && ended.rows[key].attempts == rows[key].attempts
      && (ended.report.Left? <==> rows[key].status.Stuck?) && !ended.report.Raised? && !ended.report.Resent?
  {
  }

  /** So does one whose deadline passes, or whose clock cannot be read again, between the verdict and the resend. */
  lemma AnExpiryWhileResolvingEndsStuck(rows: Rows, key: Key, pass: Pass)
    requires key in rows && !Terminal(rows[key].status) && !IsIncluded(rows[key].status)
    requires Resolve(rows[key], pass.resolving, pass.fallback, pass.clock) == Ok(Unknown)
    requires pass.clock.chainNow.Some? && pass.rebroadcast && pass.ours
    requires pass.sendTime.None? || (rows[key].acceptBy != 0 && rows[key].acceptBy <= pass.sendTime.value)
    ensures var ended := Resolving(rows, key, rows[key], pass);
      && !ended.report.Resent? && key in ended.rows && ended.rows[key].attempts == rows[key].attempts
      && ended.rows[key].status.Stuck?
  {
  }

  /** A row whose block is still there and not yet safe is left exactly as it is. */
  lemma WaitingForSafetyWritesNothing(rows: Rows, key: Key, pass: Pass)
    requires key in rows && IsIncluded(rows[key].status) && rows[key].block.Some? && pass.confirming.safe.Some?
    requires var at := rows[key].block.value;
      && pass.confirming.safe.value < at.number < |pass.confirming.blocks| && pass.confirming.blocks[at.number] == at.hash
    ensures Resolving(rows, key, rows[key], pass) == Ended(rows, Left)
  {
  }

  /** Without a safe head a row whose block is there cannot be judged: that is raised, and nothing is written. */
  lemma NoSafeHeadIsRaised(rows: Rows, key: Key, pass: Pass)
    requires key in rows && IsIncluded(rows[key].status) && rows[key].block.Some? && pass.confirming.safe.None?
    requires var at := rows[key].block.value;
      at.number < |pass.confirming.blocks| && pass.confirming.blocks[at.number] == at.hash
    ensures Resolving(rows, key, rows[key], pass) == Ended(rows, Raised(FromChain(SafeHeadUnavailable)))
  {
  }

  /** Why untraced bytes with time left are not sent, and that nothing is written when they are not: nobody asked or the clock or the deployment is in doubt, or the opt-in is missing, which alone is an error. */
  lemma WhyNothingIsSent(rows: Rows, key: Key, pass: Pass)
    requires key in rows && !Terminal(rows[key].status) && !IsIncluded(rows[key].status)
    requires Resolve(rows[key], pass.resolving, pass.fallback, pass.clock) == Ok(Unknown)
    ensures var ended := Resolving(rows, key, rows[key], pass);
      && (pass.clock.chainNow.None? || !pass.rebroadcast || !pass.ours <==> ended.report.Left?)
      && (ended.report == Raised(NotAuthorised) <==>
           && pass.clock.chainNow.Some? && pass.rebroadcast && pass.ours && !pass.authorised
           && pass.sendTime.Some? && (rows[key].acceptBy == 0 || pass.sendTime.value < rows[key].acceptBy))
      && (ended.report.Left? || ended.report.Raised? ==> ended.rows == rows)
  {
  }

  /** What becomes of a resend, answer by answer. None gives the nonce back: these bytes were handed out before. */
  lemma WhatAResendLeaves(rows: Rows, key: Key, pass: Pass)
    requires key in rows && Resolving(rows, key, rows[key], pass).report.Resent?
    ensures var ended := Resolving(rows, key, rows[key], pass);
      && key in Blocking(ended.rows, key.account) && ended.report.row == ended.rows[key]
      && ended.rows[key].attempts == rows[key].attempts + 1
      && (pass.answer.Accepted? <==> ended.rows[key].status.Pending?)
      && (pass.answer.NonceTooLow? <==> ended.rows[key].status.NonceConflictPending?)
      && (pass.answer.InDoubt? <==> ended.rows[key].status.SendAttempted?)
      && (pass.answer.TurnedAway? <==> ended.rows[key].status.Stuck?)
  {
    OnlyResendingResends(rows, key, rows[key], pass);
  }

  // ---------------------------------------------------------------------------------------
  // Verdicts the graph does not admit
  // ---------------------------------------------------------------------------------------

  /** Every verdict `resolve` can give that the graph refuses, and no other. */
  lemma RefusedVerdicts(row: Row, primary: View, fallback: Node, clock: Clock)
    requires !Terminal(row.status) && !IsIncluded(row.status)
    requires Resolve(row, primary, fallback, clock).Ok? && Resolve(row, primary, fallback, clock).value.Known?
    ensures var status := Resolve(row, primary, fallback, clock).value.status;
      status != row.status ==>
        (!Allowed(row.status, status) <==>
          || (row.status.Signed? && !status.Stuck?)
          || ((row.status.Reorged? || row.status.Stuck?) && status.NonceConflictPending?))
  {
  }

  /**
   * A crash between recording a row and marking its attempt leaves it `SIGNED`. If another
   * transaction then takes its nonce, no pass on a node that knows of it ever writes anything: the graph
   * admits neither verdict, so the wallet stays held by bytes that were never sent and can never be
   * mined.
   */
  lemma ATakenSignedRowIsNeverFreed(rows: Rows, key: Key, pass: Pass, permanent: Blocks)
    requires key in rows && rows[key].status.Signed? && rows[key].nonce == rows[key].raw.nonce && rows[key].raw.account == key.account
    requires rows[key].nonce < Count(permanent, rows[key].raw.account) && !Holds(permanent, rows[key].raw)
    requires Chain.Valid(pass.resolving.blocks) && permanent <= pass.resolving.blocks && rows[key].raw !in pass.resolving.pool
    requires pass.fallback.Answering? ==> Chain.Valid(pass.fallback.view.blocks) && permanent <= pass.fallback.view.blocks
    ensures var ended := Resolving(rows, key, rows[key], pass);
      && ended.rows == rows
      && (ended.report == Raised(FromLedger(IllegalTransition)) || ended.report == Raised(FromChain(RpcUnavailable)))
    ensures key in Blocking(rows, key.account)
  {
    var raw := rows[key].raw;
    StillTaken(permanent, pass.resolving.blocks, raw);
    if pass.fallback.Answering? {
      StillTaken(permanent, pass.fallback.view.blocks, raw);
    }
    ATakenSlotIsAConflict(rows[key], pass.resolving, pass.fallback, pass.clock);
    ASignedRowRefusesAConflict(rows, key, pass);
  }

  /** Its number is spent, by bytes that are not its own, on both nodes and where both are safe. */
  ghost predicate SpentByOthers(row: Row, pass: Pass) {
    var account := row.raw.account;
    && pass.fallback.Answering? && pass.fallback.view.chainId == account.chainId
    && pass.resolving.safe.Some? && pass.fallback.view.safe.Some?
    && !Holds(pass.resolving.blocks, row.raw) && row.raw !in pass.resolving.pool && !Holds(pass.fallback.view.blocks, row.raw)
    && row.nonce < Latest(pass.resolving, account) && row.nonce < Latest(pass.fallback.view, account)
    && row.nonce < Count(SafeBlocks(pass.resolving), account) && row.nonce < Count(SafeBlocks(pass.fallback.view), account)
  }

  /** A waiting row whose number both nodes report spent at their safe heads is retired, and its wallet let go of, exactly when it was ever marked for sending. */
  lemma ATakenRowIsRetiredIff(rows: Rows, key: Key, pass: Pass)
    requires key in rows && !Terminal(rows[key].status) && !IsIncluded(rows[key].status)
    requires SpentByOthers(rows[key], pass)
    ensures key !in Blocking(Resolving(rows, key, rows[key], pass).rows, key.account) <==> !rows[key].status.Signed?
    ensures !rows[key].status.Signed? ==> Resolving(rows, key, rows[key], pass).rows[key].status.NonceConsumedOrReplaced?
  {
  }

  lemma ASignedRowRefusesAConflict(rows: Rows, key: Key, pass: Pass)
    requires key in rows && rows[key].status.Signed?
    requires var verdict := Resolve(rows[key], pass.resolving, pass.fallback, pass.clock);
      || verdict == Err(RpcUnavailable)
      || (verdict.Ok? && verdict.value.Known? && !verdict.value.status.Signed? && !Allowed(Signed, verdict.value.status))
    ensures Resolving(rows, key, rows[key], pass) == Ended(rows, Raised(FromLedger(IllegalTransition)))
         || Resolving(rows, key, rows[key], pass) == Ended(rows, Raised(FromChain(RpcUnavailable)))
  {
  }

  /** Bytes with no trace and a spent nonce: a conflict, a consumed slot, or no answer. */
  lemma ATakenSlotIsAConflict(row: Row, primary: View, fallback: Node, clock: Clock)
    requires row.nonce == row.raw.nonce && row.raw !in primary.pool
    requires !Holds(primary.blocks, row.raw) && row.raw.nonce < Count(primary.blocks, row.raw.account)
    requires fallback.Answering? ==> !Holds(fallback.view.blocks, row.raw)
    ensures var verdict := Resolve(row, primary, fallback, clock);
      || verdict == Err(RpcUnavailable)
      || verdict == Ok(Known(NonceConflictPending, None))
      || verdict == Ok(Known(NonceConsumedOrReplaced, None))
  {
  }

  lemma StillTaken(permanent: Blocks, later: Blocks, raw: Raw)
    requires Chain.Valid(later) && permanent <= later && raw.nonce < Count(permanent, raw.account) && !Holds(permanent, raw)
    ensures !Holds(later, raw) && raw.nonce < Count(later, raw.account)
  {
    ATakenNonceIsPermanent(permanent, later, raw);
    TxsOfAPrefix(permanent, later);
    assert Txs(later)[..|Txs(permanent)|] == Txs(permanent);
    CountGrows(Txs(later), |Txs(permanent)|, raw.account);
  }

  // ---------------------------------------------------------------------------------------
  // A pass writes only what is so
  // ---------------------------------------------------------------------------------------

  /** What a row claims is true of the permanent blocks. */
  ghost predicate Sound(row: Row, permanent: Blocks) {
    Truthful(row) && Founded(row, permanent)
  }

  lemma WritingIsSound(rows: Rows, key: Key, seen: Row, status: Status, block: Option<BlockRef>, bump: bool, permanent: Blocks)
    requires key in rows && rows[key] == seen && Sound(seen, permanent)
    requires Sound(seen.(status := status, block := block), permanent)
    ensures Sound(Writing(rows, key, seen, status, block, bump).rows[key], permanent)
    ensures var ended := Writing(rows, key, seen, status, block, bump);
      ended.report.Written? ==> ended.report.row == ended.rows[key] && ended.rows[key].status == status
  {
  }

  lemma ConfirmingIsSound(rows: Rows, key: Key, seen: Row, view: View, permanent: Blocks)
    requires key in rows && rows[key] == seen && Sound(seen, permanent) && IsIncluded(seen.status)
    requires Faithful(view, permanent)
    ensures Sound(Confirming(rows, key, seen, view).rows[key], permanent)
  {
    ConfirmIsFounded(seen, view, permanent);
    var verdict := Confirm(seen, view);
    if verdict.Ok? && verdict.value.Known? {
      WritingIsSound(rows, key, seen, verdict.value.status, verdict.value.block, false, permanent);
    }
  }

  lemma ResendingIsSound(rows: Rows, key: Key, seen: Row, pass: Pass, permanent: Blocks)
    requires key in rows && rows[key] == seen && Sound(seen, permanent)
    ensures Sound(Resending(rows, key, seen, pass).rows[key], permanent)
  {
  }

  /** On nodes faithful to the permanent blocks, whatever a pass writes about a row is so. */
  lemma APassWritesWhatIsSo(rows: Rows, key: Key, pass: Pass, permanent: Blocks)
    requires key in rows && Sound(rows[key], permanent) && Chain.Valid(permanent)
    requires Faithful(pass.resolving, permanent) && Faithful(pass.confirming, permanent)
    requires pass.fallback.Answering? ==> Faithful(pass.fallback.view, permanent)
    ensures key in Resolving(rows, key, rows[key], pass).rows
    ensures Sound(Resolving(rows, key, rows[key], pass).rows[key], permanent)
  {
    APassTouchesOneRow(rows, key, rows[key], pass);
    var seen := rows[key];
    if IsIncluded(seen.status) {
      ConfirmingIsSound(rows, key, seen, pass.confirming, permanent);
    } else {
      ResendingIsSound(rows, key, seen, pass, permanent);
      ResolveIsFounded(seen, pass.resolving, pass.fallback, pass.clock, permanent);
      var verdict := Resolve(seen, pass.resolving, pass.fallback, pass.clock);
      if verdict.Ok? && verdict.value.Known? {
        WritingIsSound(rows, key, seen, verdict.value.status, verdict.value.block, false, permanent);
        var written := Writing(rows, key, seen, verdict.value.status, verdict.value.block, false);
        if written.report.Written? && IsIncluded(written.report.row.status) {
          ConfirmingIsSound(written.rows, key, written.report.row, pass.confirming, permanent);
        }
      }
    }
  }
}
