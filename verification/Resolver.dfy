/**
 * What the chain is taken to say about a row: `resolve` and `confirm` of wrasse/chain.py, and
 * what a row resting on their verdicts can be relied on for. Each node gives one view for one call.
 */
module Resolver {
  import opened Chain
  import opened Constants
  import opened Ledger
  import opened Numeric

  const NO_DEADLINE: nat := 0

  datatype Verdict =
    | Known(status: Status, block: Option<BlockRef>)
    /** No receipt and no transaction: the identical bytes may be resent. */
    | Unknown

  datatype ResolveError = RpcUnavailable | SafeHeadUnavailable | NoRecordedBlock

  datatype Node = Unconfigured | Unreachable | Answering(view: View)

  /** What `resolve` knows besides the chain: the chain's clock if it could be read, how old the row's last write is, and the age bound. */
  datatype Clock = Clock(chainNow: Option<nat>, age: nat, stuckAfter: nat)

  function Included(receipt: Receipt): Verdict {
    Known(if receipt.succeeded then IncludedSuccess else IncludedReverted, Some(receipt.at))
  }

  /** The acceptance deadline is behind the chain's clock. Zero is no deadline at all. */
  predicate PastDeadline(row: Row, now: nat) {
    NO_DEADLINE < row.acceptBy <= now
  }

  /** `resolve`, from the node asked first. */
  function Resolve(row: Row, primary: View, fallback: Node, clock: Clock): Result<Verdict, ResolveError> {
    var account := row.raw.account;
    var receipt := ReceiptOf(primary.blocks, row.raw);
    if receipt.Some? then Ok(Included(receipt.value))
    else if row.raw in primary.pool then Ok(Known(Pending, None))
    else if Latest(primary, account) > row.nonce then ResolveTaken(row, primary, fallback)
    else if PendingCount(primary, account) > row.nonce then Ok(Known(NonceConflictPending, None))
    else if clock.chainNow.Some? && PastDeadline(row, clock.chainNow.value) then Ok(Known(Stuck, None))
    else if clock.age > clock.stuckAfter && row.acceptBy != NO_DEADLINE then Ok(Known(Stuck, None))
    else Ok(Unknown)
  }

  /** The account is past the nonce on one node: abandoning the payload needs a second node, at the safe head. */
  function ResolveTaken(row: Row, primary: View, fallback: Node): Result<Verdict, ResolveError> {
    match fallback
    case Unconfigured => Ok(Known(NonceConflictPending, None))
    case Unreachable => Err(RpcUnavailable)
    case Answering(second) =>
      var account := row.raw.account;
      var receipt := ReceiptOf(second.blocks, row.raw);
      if second.chainId != account.chainId then Err(RpcUnavailable)
      else if receipt.Some? then Ok(Included(receipt.value))
      else if Latest(second, account) <= row.nonce then Ok(Known(NonceConflictPending, None))
      else if primary.safe.None? || second.safe.None? then Ok(Known(NonceConflictPending, None))
      else if Min(Count(SafeBlocks(primary), account), Count(SafeBlocks(second), account)) <= row.nonce
      then Ok(Known(NonceConflictPending, None))
      else Ok(Known(NonceConsumedOrReplaced, None))
  }

  /** `confirm` by the safe head. */
  function Confirm(row: Row, primary: View): Result<Verdict, ResolveError> {
    if row.block.None? then Err(NoRecordedBlock)
    else
      var at := row.block.value;
      if at.number >= |primary.blocks| then Ok(Known(Reorged, None))
      else if primary.blocks[at.number] != at.hash then Ok(Known(Reorged, None))
      else if primary.safe.None? then Err(SafeHeadUnavailable)
      else if at.number > primary.safe.value then Ok(Known(row.status, row.block))
      else Ok(Known(if row.status == IncludedSuccess then ConfirmedSuccess else ConfirmedReverted, row.block))
  }

  /** No verdict says more than its nodes do: abandoning a payload takes two chains without it, both past its nonce where they are safe. */
  lemma WhatEachVerdictTakes(row: Row, primary: View, fallback: Node, clock: Clock)
    requires Resolve(row, primary, fallback, clock).Ok? && Resolve(row, primary, fallback, clock).value.Known?
    ensures var status := Resolve(row, primary, fallback, clock).value.status; var account := row.raw.account;
      && (status.IncludedSuccess? || status.IncludedReverted? <==>
           Holds(primary.blocks, row.raw)
           || (row.raw !in primary.pool && row.nonce < Latest(primary, account)
               && fallback.Answering? && Holds(fallback.view.blocks, row.raw)))
      && (status.Pending? <==> !Holds(primary.blocks, row.raw) && row.raw in primary.pool)
      && (status.NonceConsumedOrReplaced? <==>
           && !Holds(primary.blocks, row.raw) && row.raw !in primary.pool
           && fallback.Answering? && !Holds(fallback.view.blocks, row.raw)
           && row.nonce < Latest(primary, account) && row.nonce < Latest(fallback.view, account)
           && primary.safe.Some? && fallback.view.safe.Some?
           && row.nonce < Count(SafeBlocks(primary), account) && row.nonce < Count(SafeBlocks(fallback.view), account))
      && (status.Stuck? ==> row.acceptBy != NO_DEADLINE && Latest(primary, account) <= row.nonce && PendingCount(primary, account) <= row.nonce)
  {
  }

  /** The node asked has no trace of these bytes, and their nonce is still open to it. */
  predicate NoTrace(v: View, raw: Raw, nonce: nat) {
    && !Holds(v.blocks, raw) && raw !in v.pool
    && Latest(v, raw.account) <= nonce && PendingCount(v, raw.account) <= nonce
  }

  /** The nonce is spent on the node asked, and its bytes are nowhere on it. */
  predicate SpentHere(v: View, raw: Raw, nonce: nat) {
    !Holds(v.blocks, raw) && raw !in v.pool && nonce < Latest(v, raw.account)
  }

  /** The second node answers for the row's own chain and has not mined its bytes. */
  predicate SecondWithout(row: Row, fallback: Node) {
    fallback.Answering? && fallback.view.chainId == row.raw.account.chainId && !Holds(fallback.view.blocks, row.raw)
  }

  /** The second node does not bear out that the nonce is spent: not at its tip, or not where both are safe. */
  predicate NotBorneOut(row: Row, primary: View, second: View) {
    var account := row.raw.account;
    || Latest(second, account) <= row.nonce || primary.safe.None? || second.safe.None?
    || Count(SafeBlocks(primary), account) <= row.nonce || Count(SafeBlocks(second), account) <= row.nonce
  }

  /**
   * The verdicts that leave a row waiting, and the refusals, each exactly: stuck, when there is no
   * trace and the time is up; a conflict, when the nonce is spoken for by a pending count alone or
   * spent on one node's word; unavailable, when a second word was needed and there was none to trust.
   */
  lemma WhatLeavesARowWaiting(row: Row, primary: View, fallback: Node, clock: Clock)
    ensures var v := Resolve(row, primary, fallback, clock); var raw := row.raw;
      && (v == Ok(Known(Stuck, None)) <==>
           && NoTrace(primary, raw, row.nonce) && row.acceptBy != 0
           && ((clock.chainNow.Some? && row.acceptBy <= clock.chainNow.value) || clock.stuckAfter < clock.age))
      && (v == Ok(Known(NonceConflictPending, None)) <==>
           || (!Holds(primary.blocks, raw) && raw !in primary.pool
               && Latest(primary, raw.account) <= row.nonce < PendingCount(primary, raw.account))
           || (SpentHere(primary, raw, row.nonce)
               && (fallback.Unconfigured? || (SecondWithout(row, fallback) && NotBorneOut(row, primary, fallback.view)))))
      && (v.Err? <==>
           SpentHere(primary, raw, row.nonce)
           && (fallback.Unreachable? || (fallback.Answering? && fallback.view.chainId != raw.account.chainId)))
      && (v.Err? ==> v.error == RpcUnavailable)
      && (v.Ok? && v.value.Known? && v.value.block.Some? <==>
           v.Ok? && v.value.Known? && (v.value.status.IncludedSuccess? || v.value.status.IncludedReverted?))
  {
  }

  /** A pending count past the nonce is a conflict nobody has proved, when the node reports one of its own; a node that reports none speaks from its chain. */
  lemma APendingCountIsOnlyAConflict(row: Row, primary: View, fallback: Node, clock: Clock)
    requires !Holds(primary.blocks, row.raw) && row.raw !in primary.pool && Count(primary.blocks, row.raw.account) <= row.nonce
    ensures Resolve(row, primary, fallback, clock) == Ok(Known(NonceConflictPending, None)) <==>
      row.raw.account in primary.pendingCount && row.nonce < primary.pendingCount[row.raw.account]
  {
  }

  /** `confirm` cannot be asked about a row that names no block, and cannot settle one on a node that reports no safe head. */
  lemma WhenConfirmationRefuses(row: Row, primary: View)
    ensures Confirm(row, primary) == Err(NoRecordedBlock) <==> row.block.None?
    ensures Confirm(row, primary) == Err(SafeHeadUnavailable) <==>
      && row.block.Some? && row.block.value.number < |primary.blocks|
      && primary.blocks[row.block.value.number] == row.block.value.hash && primary.safe.None?
  {
  }

  /** `confirm` finds a reorganisation exactly when the recorded block is no longer there, and settles exactly a block that is there at or below the safe head. */
  lemma WhatConfirmationTakes(row: Row, primary: View)
    requires row.block.Some? && (row.status.IncludedSuccess? || row.status.IncludedReverted?)
    ensures var at := row.block.value; var v := Confirm(row, primary);
      var there := at.number < |primary.blocks| && primary.blocks[at.number] == at.hash;
      && (v == Ok(Known(Reorged, None)) <==> !there)
      && (v.Ok? && v.value.Known? && Terminal(v.value.status) <==> there && primary.safe.Some? && at.number <= primary.safe.value)
      && (v == Ok(Known(row.status, row.block)) <==> there && primary.safe.Some? && primary.safe.value < at.number)
      && (v.Err? <==> there && primary.safe.None?)
      && (v.Ok? && v.value.Known? && Terminal(v.value.status) ==>
           && v.value.block == row.block
           && (v.value.status.ConfirmedSuccess? <==> row.status.IncludedSuccess?)
           && (v.value.status.ConfirmedReverted? <==> row.status.IncludedReverted?))
  {
  }

  // ---------------------------------------------------------------------------------------
  // What a row's status can be relied on for
  // ---------------------------------------------------------------------------------------

  /** An included row names a block that carries its bytes with that outcome. */
  ghost predicate Truthful(row: Row) {
    && row.nonce == row.raw.nonce
    && (row.status.IncludedSuccess? ==> row.block.Some? && Mined(row.raw, true) in row.block.value.hash.txs)
    && (row.status.IncludedReverted? ==> row.block.Some? && Mined(row.raw, false) in row.block.value.hash.txs)
  }

  /** A settled verdict is about blocks that are permanent. */
  ghost predicate Founded(row: Row, permanent: Blocks) {
    && (row.status.ConfirmedSuccess? ==> IsMined(permanent, row.raw, true))
    && (row.status.ConfirmedReverted? ==> IsMined(permanent, row.raw, false))
    && (row.status.NonceConsumedOrReplaced? ==>
         row.raw.nonce < Count(permanent, row.raw.account) && !Holds(permanent, row.raw))
  }

  /** A block at or below the safe head of a faithful node is permanent. */
  lemma SafeIsPermanent(v: View, permanent: Blocks, n: nat)
    requires Faithful(v, permanent) && v.safe.Some? && n <= v.safe.value && n < |v.blocks|
    ensures n < |permanent| && permanent[n] == v.blocks[n]
  {
  }

  lemma ConfirmIsFounded(row: Row, primary: View, permanent: Blocks)
    requires Truthful(row) && (row.status.IncludedSuccess? || row.status.IncludedReverted?)
    requires Faithful(primary, permanent)
    ensures var v := Confirm(row, primary);
      v.Ok? && v.value.Known? ==>
        && var after := row.(status := v.value.status, block := v.value.block);
        Truthful(after) && Founded(after, permanent)
  {
    var at := row.block.value;
    if at.number < |primary.blocks| && primary.blocks[at.number] == at.hash && primary.safe.Some? && at.number <= primary.safe.value {
      SafeIsPermanent(primary, permanent, at.number);
      ABlockIsPartOfTheChain(permanent, at.number, Mined(row.raw, row.status.IncludedSuccess?));
    }
  }

  lemma ResolveIsFounded(row: Row, primary: View, fallback: Node, clock: Clock, permanent: Blocks)
    requires row.nonce == row.raw.nonce && Valid(permanent) && Faithful(primary, permanent)
    requires fallback.Answering? ==> Faithful(fallback.view, permanent)
    ensures var v := Resolve(row, primary, fallback, clock);
      v.Ok? && v.value.Known? ==>
        var after := row.(status := v.value.status, block := v.value.block);
        Truthful(after) && Founded(after, permanent)
  {
    if Resolve(row, primary, fallback, clock) == Ok(Known(NonceConsumedOrReplaced, None)) {
      ConsumedIsFounded(row, primary, permanent);
    }
  }

  /** A node whose safe head is past the nonce and whose chain does not carry the bytes speaks for every chain. */
  lemma ConsumedIsFounded(row: Row, primary: View, permanent: Blocks)
    requires Valid(permanent) && Faithful(primary, permanent)
    requires ReceiptOf(primary.blocks, row.raw).None? && row.raw.nonce < Count(SafeBlocks(primary), row.raw.account)
    ensures row.raw.nonce < Count(permanent, row.raw.account) && !Holds(permanent, row.raw)
  {
    var safe := SafeBlocks(primary);
    TxsOfAPrefix(safe, primary.blocks);
    TxsOfAPrefix(safe, permanent);
    assert forall p :: 0 <= p < |Txs(safe)| ==> Txs(primary.blocks)[p] == Txs(safe)[p];
    ATakenNonceIsPermanent(safe, permanent, row.raw);
    assert Txs(permanent)[..|Txs(safe)|] == Txs(safe);
    CountGrows(Txs(permanent), |Txs(safe)|, row.raw.account);
  }

  // ---------------------------------------------------------------------------------------
  // One row's history against a chain that can reorganise
  // ---------------------------------------------------------------------------------------

  /** Every version of one row that was ever stored, latest last, and the blocks permanent so far. */
  datatype History = History(versions: seq<Row>, permanent: Blocks)

  datatype Event =
    /** More blocks become permanent; every tail above them may be replaced. */
    | Grow(permanent: Blocks)
    /** A process that read version `seen` writes what `resolve` told it. */
    | WriteResolved(seen: nat, primary: View, fallback: Node, clock: Clock)
    /** A process that read version `seen` writes what `confirm` told it. */
    | WriteConfirmed(seen: nat, primary: View)
    /** A process that read version `seen` marks an attempt or a send's answer. */
    | WriteSending(seen: nat, status: Status, bump: bool)
    /** The process that recorded the row gives its nonce back. */
    | WriteReleased(seen: nat)

  /** What a send can write, none of which claims a block. */
  predicate SendingStatus(s: Status) {
    s.SendAttempted? || s.Pending? || s.NonceConflictPending? || s.Stuck?
  }

  /** The compare-and-swap of one row, on the version the writer saw. */
  function Store(h: History, seen: nat, status: Status, block: Option<BlockRef>, bump: bool): History
    requires seen < |h.versions|
  {
    var now := h.versions[|h.versions| - 1];
    if now.status != h.versions[seen].status then h
    else h.(versions := h.versions + [now.(status := status, block := block, attempts := now.attempts + if bump then 1 else 0)])
  }

  /** The swap, if the graph admits it from what the writer saw. */
  function Swap(h: History, seen: nat, verdict: Verdict, bump: bool): History
    requires seen < |h.versions|
  {
    if verdict.Unknown? || !Allowed(h.versions[seen].status, verdict.status) then h
    else Store(h, seen, verdict.status, verdict.block, bump)
  }

  function After(h: History, event: Event): History {
    match event
    case Grow(permanent) => h.(permanent := permanent)
    case WriteResolved(seen, primary, fallback, clock) =>
      if seen >= |h.versions| then h
      else
        var verdict := Resolve(h.versions[seen], primary, fallback, clock);
        if verdict.Err? then h else Swap(h, seen, verdict.value, false)
    case WriteConfirmed(seen, primary) =>
      if seen >= |h.versions| then h
      else
        var verdict := Confirm(h.versions[seen], primary);
        if verdict.Err? then h else Swap(h, seen, verdict.value, false)
    case WriteSending(seen, status, bump) =>
      if seen >= |h.versions| then h else Swap(h, seen, Known(status, None), bump)
    case WriteReleased(seen) =>
      if seen >= |h.versions| || !h.versions[seen].status.SendAttempted? || h.versions[seen].attempts != 1 then h
      else Store(h, seen, Unbroadcast, None, false)
  }

  /** Permanence only grows, nodes are faithful to it, `confirm` is asked only about included rows, and sends write only what a send learns. */
  ghost predicate Plausible(h: History, event: Event) {
    match event
    case Grow(permanent) => Chain.Valid(permanent) && h.permanent <= permanent
    case WriteResolved(_, primary, fallback, _) =>
      Faithful(primary, h.permanent) && (fallback.Answering? ==> Faithful(fallback.view, h.permanent))
    case WriteConfirmed(seen, primary) =>
      && Faithful(primary, h.permanent)
      && (seen < |h.versions| ==> h.versions[seen].status.IncludedSuccess? || h.versions[seen].status.IncludedReverted?)
    case WriteSending(_, status, _) => SendingStatus(status)
    case WriteReleased(_) => true
  }

  ghost predicate Sound(h: History) {
    && Valid(h.permanent)
    && |h.versions| > 0
    && forall i :: 0 <= i < |h.versions| ==>
         && h.versions[i].raw == h.versions[0].raw && h.versions[i].nonce == h.versions[0].nonce
         && Truthful(h.versions[i]) && Founded(h.versions[i], h.permanent)
  }

  lemma GrowKeepsFounded(row: Row, before: Blocks, after: Blocks)
    requires Founded(row, before) && Valid(after) && before <= after
    ensures Founded(row, after)
  {
    TxsOfAPrefix(before, after);
    if row.status.NonceConsumedOrReplaced? {
      ATakenNonceIsPermanent(before, after, row.raw);
      assert Txs(after)[..|Txs(before)|] == Txs(before);
      CountGrows(Txs(after), |Txs(before)|, row.raw.account);
    }
    if row.status.ConfirmedSuccess? {
      AnOutcomeIsPermanent(before, after, row.raw, true);
    }
    if row.status.ConfirmedReverted? {
      AnOutcomeIsPermanent(before, after, row.raw, false);
    }
  }

  lemma SwapKeepsSound(h: History, seen: nat, verdict: Verdict, bump: bool)
    requires Sound(h) && seen < |h.versions|
    requires verdict.Known? ==>
      var after := h.versions[seen].(status := verdict.status, block := verdict.block);
      Truthful(after) && Founded(after, h.permanent)
    ensures Sound(Swap(h, seen, verdict, bump))
  {
  }

  lemma AfterKeepsSound(h: History, event: Event)
    requires Sound(h) && Plausible(h, event)
    ensures Sound(After(h, event))
  {
    match event
    case Grow(permanent) =>
      forall i | 0 <= i < |h.versions| ensures Founded(h.versions[i], permanent) {
        GrowKeepsFounded(h.versions[i], h.permanent, permanent);
      }
    case WriteResolved(seen, primary, fallback, clock) =>
      if seen < |h.versions| {
        ResolveIsFounded(h.versions[seen], primary, fallback, clock, h.permanent);
        var verdict := Resolve(h.versions[seen], primary, fallback, clock);
        if verdict.Ok? {
          SwapKeepsSound(h, seen, verdict.value, false);
        }
      }
    case WriteConfirmed(seen, primary) =>
      if seen < |h.versions| {
        ConfirmIsFounded(h.versions[seen], primary, h.permanent);
        var verdict := Confirm(h.versions[seen], primary);
        if verdict.Ok? {
          SwapKeepsSound(h, seen, verdict.value, false);
        }
      }
    case WriteSending(seen, status, bump) =>
      if seen < |h.versions| {
        SwapKeepsSound(h, seen, Known(status, None), bump);
      }
    case WriteReleased(_) =>
  }

  ghost function Play(start: History, events: seq<Event>): History {
    if events == [] then start else After(Play(start, events[..|events| - 1]), events[|events| - 1])
  }

  ghost predicate PlausibleRun(start: History, events: seq<Event>) {
    events == [] ||
    (PlausibleRun(start, events[..|events| - 1]) && Plausible(Play(start, events[..|events| - 1]), events[|events| - 1]))
  }

  lemma {:induction false} PlayKeepsSound(start: History, events: seq<Event>)
    requires Sound(start) && PlausibleRun(start, events)
    ensures Sound(Play(start, events)) && Play(start, events).versions[0] == start.versions[0]
  {
    if events != [] {
      PlayKeepsSound(start, events[..|events| - 1]);
      AfterKeepsSound(Play(start, events[..|events| - 1]), events[|events| - 1]);
    }
  }

  /** A row as it is recorded, before anything is sent. */
  ghost predicate Recorded(start: History) {
    && Valid(start.permanent) && |start.versions| == 1
    && start.versions[0].status.Signed? && start.versions[0].nonce == start.versions[0].raw.nonce
  }

  /**
   * Whatever any number of resolvers write, from whatever stale reads, while the chain
   * reorganises above its permanent blocks: a row confirmed as a success or as a revert has
   * exactly that outcome in every later chain, and a row whose nonce was called consumed is
   * mined in none.
   */
  lemma {:induction false} VerdictsAreFinal(start: History, events: seq<Event>, h: History, later: Blocks)
    requires Recorded(start) && PlausibleRun(start, events) && h == Play(start, events)
    requires Valid(later) && h.permanent <= later
    ensures h.versions != [] && Final(h.versions[|h.versions| - 1], later)
  {
    RecordedIsSound(start);
    PlayKeepsSound(start, events);
    SoundIsFinal(h, later);
  }

  lemma RecordedIsSound(start: History)
    requires Recorded(start)
    ensures Sound(start)
  {
  }

  lemma SoundIsFinal(h: History, later: Blocks)
    requires Sound(h) && Valid(later) && h.permanent <= later
    ensures h.versions != [] && Final(h.versions[|h.versions| - 1], later)
  {
    FoundedIsFinal(h.versions[|h.versions| - 1], h.permanent, later);
  }

  /** What a settled status says about one chain. */
  ghost predicate Final(row: Row, chain: Blocks) {
    && (row.status.ConfirmedSuccess? ==> IsMined(chain, row.raw, true) && !IsMined(chain, row.raw, false))
    && (row.status.ConfirmedReverted? ==> IsMined(chain, row.raw, false) && !IsMined(chain, row.raw, true))
    && (row.status.NonceConsumedOrReplaced? ==> !Holds(chain, row.raw))
  }

  lemma FoundedIsFinal(row: Row, permanent: Blocks, later: Blocks)
    requires Founded(row, permanent) && Valid(later) && permanent <= later
    ensures Final(row, later)
  {
    if row.status.ConfirmedSuccess? {
      AnOutcomeIsPermanent(permanent, later, row.raw, true);
    } else if row.status.ConfirmedReverted? {
      AnOutcomeIsPermanent(permanent, later, row.raw, false);
    } else if row.status.NonceConsumedOrReplaced? {
      ATakenNonceIsPermanent(permanent, later, row.raw);
    }
  }
}
