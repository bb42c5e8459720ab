/**
 * Runs of the ledger whose every status comes from somewhere: a send's own answer, or what
 * `resolve` or `confirm` said of a version of the row, on nodes faithful to what was permanent by
 * then. wrasse/chain.py under the commands of wrasse/cli.py.
 */
module GroundedRuns {
  import opened Chain
  import opened Constants
  import opened FreeWallet
  import opened Ledger
  import opened Resolver
  import Attempts
  import Runs = LedgerRuns
  import TxResolve

  /** What a move rests on; a version is the row as it was stored after the first `moment` actions. */
  datatype Basis =
    | FromSending
    | FromResolve(moment: nat, primary: View, fallback: Node, clock: Clock)
    | FromConfirm(moment: nat, primary: View)

  /** One action, and the blocks permanent when it happens. */
  datatype Happening = Happening(action: Runs.Action, basis: Basis, permanent: Blocks)

  function ActionsOf(run: seq<Happening>): seq<Runs.Action> {
    if run == [] then [] else ActionsOf(run[..|run| - 1]) + [run[|run| - 1].action]
  }

  function PermanentAfter(run: seq<Happening>): Blocks {
    if run == [] then [] else run[|run| - 1].permanent
  }

  ghost function RowsAt(actions: seq<Runs.Action>, moment: nat): Rows
    requires moment <= |actions|
  {
    Runs.Run(actions[..moment]).rows
  }

  /** A move that rests on what its basis says. */
  ghost predicate Based(before: seq<Runs.Action>, h: Happening)
    requires h.action.Move?
  {
    match h.basis
    case FromSending => SendingStatus(h.action.status) && h.action.block.None?
    case FromResolve(moment, primary, fallback, clock) =>
      && moment <= |before| && h.action.key in RowsAt(before, moment)
      && Faithful(primary, h.permanent) && (fallback.Answering? ==> Faithful(fallback.view, h.permanent))
      && Resolve(RowsAt(before, moment)[h.action.key], primary, fallback, clock) == Ok(Known(h.action.status, h.action.block))
    case FromConfirm(moment, primary) =>
      && moment <= |before| && h.action.key in RowsAt(before, moment)
      && TxResolve.IsIncluded(RowsAt(before, moment)[h.action.key].status)
      && Faithful(primary, h.permanent)
      && Confirm(RowsAt(before, moment)[h.action.key], primary) == Ok(Known(h.action.status, h.action.block))
  }

  /** What is permanent only grows, and every move is based on something. */
  ghost predicate Grounded(run: seq<Happening>) {
    run == [] ||
    var before := run[..|run| - 1]; var last := run[|run| - 1];
    && Grounded(before)
    && Chain.Valid(last.permanent) && PermanentAfter(before) <= last.permanent
    && (last.action.Move? ==> Based(ActionsOf(before), last))
  }

  lemma {:induction false} ActionsOfAPrefix(run: seq<Happening>, n: nat)
    requires n <= |run|
    ensures |ActionsOf(run)| == |run| && ActionsOf(run)[..n] == ActionsOf(run[..n])
    decreases |run|
  {
    if n == |run| {
      assert run[..n] == run;
      if run != [] {
        ActionsOfAPrefix(run[..|run| - 1], 0);
      }
    } else {
      ActionsOfAPrefix(run[..|run| - 1], n);
      assert run[..|run| - 1][..n] == run[..n];
    }
  }

  /** What a row claims is true of the permanent blocks. */
  ghost predicate AllSound(rows: Rows, permanent: Blocks) {
    forall k :: k in rows ==> TxResolve.Sound(rows[k], permanent)
  }

  lemma SoundAsItGrows(rows: Rows, before: Blocks, after: Blocks)
    requires AllSound(rows, before) && Chain.Valid(after) && before <= after
    ensures AllSound(rows, after)
  {
    forall k | k in rows ensures TxResolve.Sound(rows[k], after) {
      GrowKeepsFounded(rows[k], before, after);
    }
  }

  /** A move's new row is sound, because what it was based on was a version with the same bytes. */
  lemma {:induction false} AMoveIsSound(before: seq<Runs.Action>, h: Happening)
    requires h.action.Move? && Based(before, h) && Chain.Valid(h.permanent) && h.action.key in Runs.Run(before).rows
    requires AllSound(Runs.Run(before).rows, h.permanent)
    requires forall m :: 0 <= m <= |before| ==> AllSound(RowsAt(before, m), h.permanent)
    ensures TxResolve.Sound(Runs.Run(before).rows[h.action.key].(status := h.action.status, block := h.action.block), h.permanent)
  {
    var row := Runs.Run(before).rows[h.action.key];
    match h.basis
    case FromSending =>
    case FromResolve(moment, primary, fallback, clock) =>
      var seen := RowsAt(before, moment)[h.action.key];
      Runs.BytesAreForever(before, moment);
      ResolveIsFounded(seen, primary, fallback, clock, h.permanent);
      SameClaim(seen, row, h.action.status, h.action.block, h.permanent);
    case FromConfirm(moment, primary) =>
      var seen := RowsAt(before, moment)[h.action.key];
      Runs.BytesAreForever(before, moment);
      ConfirmIsFounded(seen, primary, h.permanent);
      SameClaim(seen, row, h.action.status, h.action.block, h.permanent);
  }

  lemma SameClaim(seen: Row, row: Row, status: Status, block: Option<BlockRef>, permanent: Blocks)
    requires seen.raw == row.raw && seen.nonce == row.nonce
    requires TxResolve.Sound(seen.(status := status, block := block), permanent)
    ensures TxResolve.Sound(row.(status := status, block := block), permanent)
  {
  }

  lemma StepIsSound(w: Runs.World, action: Runs.Action, permanent: Blocks)
    requires Runs.Inv(Runs.Step(w, action)) && AllSound(w.rows, permanent)
    requires action.Move? && action.key in w.rows ==>
      TxResolve.Sound(w.rows[action.key].(status := action.status, block := action.block), permanent)
    ensures AllSound(Runs.Step(w, action).rows, permanent)
  {
    var after := Runs.Step(w, action).rows;
    forall k | k in after ensures TxResolve.Sound(after[k], permanent) {
      OneRowIsSound(w, action, permanent, k);
    }
  }

  lemma OneRowIsSound(w: Runs.World, action: Runs.Action, permanent: Blocks, k: Key)
    requires Runs.Inv(Runs.Step(w, action)) && AllSound(w.rows, permanent) && k in Runs.Step(w, action).rows
    requires action.Move? && action.key in w.rows ==>
      TxResolve.Sound(w.rows[action.key].(status := action.status, block := action.block), permanent)
    ensures TxResolve.Sound(Runs.Step(w, action).rows[k], permanent)
  {
    var after := Runs.Step(w, action).rows[k];
    if action.Move? {
      AMovedRow(w, action, k);
    } else {
      assert (k in w.rows && after == w.rows[k]) || (!Settled(after.status) && after.nonce == after.raw.nonce);
    }
  }

  /** A move gives a row its status and block, or leaves it. */
  lemma AMovedRow(w: Runs.World, action: Runs.Action, k: Key)
    requires action.Move? && k in Runs.Step(w, action).rows
    ensures k in w.rows
    ensures var after := Runs.Step(w, action).rows[k];
      || after == w.rows[k]
      || (k == action.key && after == w.rows[k].(status := action.status, block := action.block, attempts := after.attempts))
  {
  }

  /** In a grounded run, every version of every row there ever was is true of what is permanent by its end. */
  lemma {:induction false} EveryVersionIsSound(run: seq<Happening>, moment: nat)
    requires Grounded(run) && Runs.HonestRun(ActionsOf(run)) && moment <= |run|
    ensures |ActionsOf(run)| == |run| && Chain.Valid(PermanentAfter(run))
    ensures AllSound(RowsAt(ActionsOf(run), moment), PermanentAfter(run))
    decreases |run|, moment
  {
    ActionsOfAPrefix(run, moment);
    if run != [] {
      var before := run[..|run| - 1];
      ActionsOfAPrefix(run, |run| - 1);
      if moment < |run| {
        EveryVersionIsSound(before, moment);
        ActionsOfAPrefix(before, moment);
        assert before[..moment] == run[..moment];
        SoundAsItGrows(RowsAt(ActionsOf(run), moment), PermanentAfter(before), PermanentAfter(run));
      } else {
        VersionsSoFar(before, PermanentAfter(run));
        TheLastIsSound(ActionsOf(before), run[|run| - 1]);
        OneMoreIsSound(ActionsOf(before), run[|run| - 1].action, PermanentAfter(run));
        assert ActionsOf(run)[..moment] == ActionsOf(run);
      }
    }
  }

  /** Before the last happening the rows are sound, and if it is a move, so is what it writes. */
  lemma {:induction false} TheLastIsSound(actions: seq<Runs.Action>, last: Happening)
    requires Chain.Valid(last.permanent) && (last.action.Move? ==> Based(actions, last))
    requires forall m :: 0 <= m <= |actions| ==> AllSound(RowsAt(actions, m), last.permanent)
    ensures AllSound(Runs.Run(actions).rows, last.permanent)
    ensures last.action.Move? && last.action.key in Runs.Run(actions).rows ==>
      TxResolve.Sound(
        Runs.Run(actions).rows[last.action.key].(status := last.action.status, block := last.action.block), last.permanent)
  {
    assert actions[..|actions|] == actions;
    assert AllSound(RowsAt(actions, |actions|), last.permanent);
    if last.action.Move? && last.action.key in Runs.Run(actions).rows {
      AMoveIsSound(actions, last);
    }
  }

  lemma {:induction false} OneMoreIsSound(actions: seq<Runs.Action>, action: Runs.Action, permanent: Blocks)
    requires Runs.HonestRun(actions + [action]) && AllSound(Runs.Run(actions).rows, permanent)
    requires action.Move? && action.key in Runs.Run(actions).rows ==>
      TxResolve.Sound(Runs.Run(actions).rows[action.key].(status := action.status, block := action.block), permanent)
    ensures AllSound(Runs.Run(actions + [action]).rows, permanent)
  {
    Runs.EveryRunKeepsInv(actions + [action]);
    Runs.OneMore(actions, action);
    StepIsSound(Runs.Run(actions), action, permanent);
  }

  lemma {:induction false} VersionsSoFar(before: seq<Happening>, permanent: Blocks)
    requires Grounded(before) && Runs.HonestRun(ActionsOf(before)) && Chain.Valid(permanent) && PermanentAfter(before) <= permanent
    ensures |ActionsOf(before)| == |before|
    ensures forall m :: 0 <= m <= |before| ==> AllSound(RowsAt(ActionsOf(before), m), permanent)
    decreases |before|, |before| + 1
  {
    ActionsOfAPrefix(before, 0);
    forall m | 0 <= m <= |before| ensures AllSound(RowsAt(ActionsOf(before), m), permanent) {
      EveryVersionIsSound(before, m);
      SoundAsItGrows(RowsAt(ActionsOf(before), m), PermanentAfter(before), permanent);
    }
  }

  /** The rows a grounded run ends with are sound. */
  lemma {:induction false} RowsAreSound(run: seq<Happening>)
    requires Grounded(run) && Runs.HonestRun(ActionsOf(run))
    ensures Chain.Valid(PermanentAfter(run))
    ensures AllSound(Runs.Run(ActionsOf(run)).rows, PermanentAfter(run))
  {
    EveryVersionIsSound(run, |run|);
    assert ActionsOf(run)[..|run|] == ActionsOf(run);
  }

  // ---------------------------------------------------------------------------------------
  // What follows
  // ---------------------------------------------------------------------------------------

  /**
   * However many wallets, processes and stale reads a run has: whatever its rows say is settled
   * is so in every later chain.
   */
  lemma {:induction false} EveryRowIsFinal(run: seq<Happening>, key: Key, later: Blocks)
    requires Grounded(run) && Runs.HonestRun(ActionsOf(run)) && key in Runs.Run(ActionsOf(run)).rows
    requires Chain.Valid(later) && PermanentAfter(run) <= later
    ensures Final(Runs.Run(ActionsOf(run)).rows[key], later)
  {
    RowsAreSound(run);
    FoundedIsFinal(Runs.Run(ActionsOf(run)).rows[key], PermanentAfter(run), later);
  }

  /** However a run retries a deal action, in no later chain have two attempts at it succeeded. */
  lemma {:induction false} NoTwoAttemptsSucceed(run: seq<Happening>, one: Key, other: Key, later: Blocks)
    requires Grounded(run) && Runs.HonestRun(ActionsOf(run)) && Attempts.LookedUp(ActionsOf(run))
    requires one in Runs.Run(ActionsOf(run)).rows && other in Runs.Run(ActionsOf(run)).rows
    requires other == Attempts.Numbered(one, other.attempt) && one != other
    requires Chain.Valid(later) && PermanentAfter(run) <= later
    ensures var rows := Runs.Run(ActionsOf(run)).rows;
      !(IsMined(later, rows[one].raw, true) && IsMined(later, rows[other].raw, true))
  {
    RowsAreSound(run);
    Attempts.NumbersAreContiguous(ActionsOf(run));
    Attempts.OfContiguousOneSucceeds(Runs.Run(ActionsOf(run)).rows, one, other, PermanentAfter(run), later);
  }

  /** Below a row still waiting, every number the chain once reported for the wallet and has since lost belongs to a row of the wallet. */
  ghost predicate OnlyOursWereLost(w: Runs.World, blocks: Blocks, account: Account) {
    forall k, n :: Waits(w.rows, account, k) && Count(blocks, account) <= n < w.rows[k].nonce && n < Runs.Counted(w, account) ==>
      n in LiveNonces(w.rows, account)
  }

  lemma ARunLeavesAWallet(w: Runs.World, permanent: Blocks, blocks: Blocks, account: Account)
    requires Runs.Inv(w) && Runs.NoGap(w) && AllSound(w.rows, permanent) && Chain.Valid(blocks)
    requires forall k :: Waits(w.rows, account, k) ==> w.rows[k].acceptBy == NO_DEADLINE
    ensures Wallet(w.rows, blocks, account)
  {
    forall j, k | Waits(w.rows, account, j) && Waits(w.rows, account, k) && j != k ensures w.rows[j].nonce != w.rows[k].nonce {
    }
  }

  lemma HolesAreLostNumbers(w: Runs.World, permanent: Blocks, blocks: Blocks, account: Account)
    requires Runs.Inv(w) && Runs.NoGap(w) && AllSound(w.rows, permanent)
    requires Chain.Valid(blocks) && permanent <= blocks
    ensures NoHole(w.rows, blocks, account) <==> OnlyOursWereLost(w, blocks, account)
  {
    forall n | Count(blocks, account) <= n ensures Held(w.rows, account, n) <==> n in LiveNonces(w.rows, account) {
      HeldMeansLive(w, permanent, blocks, account, n);
    }
    ReportedOrHeld(w, account);
    assert forall k, n :: Waits(w.rows, account, k) && Count(blocks, account) <= n < w.rows[k].nonce ==>
      n < Runs.Counted(w, account) || n in LiveNonces(w.rows, account);
  }

  /** Below a row still waiting every number was reported by the chain or is held. */
  lemma ReportedOrHeld(w: Runs.World, account: Account)
    requires Runs.NoGap(w)
    ensures forall k, n :: Waits(w.rows, account, k) && Runs.Counted(w, account) <= n < w.rows[k].nonce ==> n in LiveNonces(w.rows, account)
  {
  }

  lemma HeldMeansLive(w: Runs.World, permanent: Blocks, blocks: Blocks, account: Account, n: nat)
    requires Runs.Inv(w) && AllSound(w.rows, permanent) && Chain.Valid(blocks) && permanent <= blocks
    requires Count(blocks, account) <= n
    ensures Held(w.rows, account, n) <==> n in LiveNonces(w.rows, account)
  {
    if n in LiveNonces(w.rows, account) {
      var j :| j in w.rows && j.account == account && Live(w.rows[j]) && w.rows[j].nonce == n;
      AnUnreachedRowIsNotOver(w.rows[j], permanent, blocks);
      assert Waits(w.rows, account, j);
    }
  }

  /** A live row the chain has not reached cannot be terminal. */
  lemma AnUnreachedRowIsNotOver(row: Row, permanent: Blocks, blocks: Blocks)
    requires Live(row) && TxResolve.Sound(row, permanent) && Chain.Valid(blocks) && permanent <= blocks
    requires Count(blocks, row.raw.account) <= row.nonce
    ensures !Terminal(row.status)
  {
    UnreachedIsUnmined(blocks, row.raw);
    CountNeverFalls(permanent, blocks, row.raw.account);
    AConfirmedRowIsMined(row, permanent, blocks);
  }

  lemma AConfirmedRowIsMined(row: Row, permanent: Blocks, blocks: Blocks)
    requires Founded(row, permanent) && permanent <= blocks
    ensures row.status.ConfirmedSuccess? || row.status.ConfirmedReverted? ==> Holds(blocks, row.raw)
  {
    if row.status.ConfirmedSuccess? || row.status.ConfirmedReverted? {
      var mined := Mined(row.raw, row.status.ConfirmedSuccess?);
      var p :| 0 <= p < |Txs(permanent)| && Txs(permanent)[p] == mined;
      assert Txs(permanent)[p].raw == row.raw;
      HoldsStays(permanent, blocks, row.raw);
    }
  }

  /**
   * After any grounded run, over any chain a reorganisation leaves above the permanent blocks: a
   * wallet whose waiting rows have no deadline can be freed by resolver passes exactly when the
   * numbers lost below them were its own and no row that was never sent has had its number spent.
   */
  lemma {:induction false} ARunsWalletIsFreeableIff(run: seq<Happening>, blocks: Blocks, account: Account)
    requires Grounded(run) && Runs.HonestRun(ActionsOf(run)) && Runs.FreshRun(ActionsOf(run))
    requires Chain.Valid(blocks) && PermanentAfter(run) <= blocks
    requires forall k :: Waits(Runs.Run(ActionsOf(run)).rows, account, k) ==>
      Runs.Run(ActionsOf(run)).rows[k].acceptBy == NO_DEADLINE
    ensures var w := Runs.Run(ActionsOf(run));
      Freeable(w.rows, blocks, account) <==> OnlyOursWereLost(w, blocks, account) && NoSignedSpent(w.rows, blocks, account)
  {
    var w := Runs.Run(ActionsOf(run));
    RowsAreSound(run);
    Runs.NoRunOpensAGap(ActionsOf(run));
    ARunLeavesAWallet(w, PermanentAfter(run), blocks, account);
    HolesAreLostNumbers(w, PermanentAfter(run), blocks, account);
    FreeableIff(w.rows, blocks, account);
  }

  /** A record, a crash before its mark, and another transaction taking its number: a wallet no resolver can free. */
  lemma ACrashCanTrapAWallet(key: Key, payload: nat, other: nat) returns (run: seq<Happening>)
    requires payload != other
    ensures Grounded(run) && Runs.HonestRun(ActionsOf(run)) && Runs.FreshRun(ActionsOf(run))
    ensures NeverSentAndSpent(Runs.Run(ActionsOf(run)).rows, key, PermanentAfter(run))
    ensures !Freeable(Runs.Run(ActionsOf(run)).rows, PermanentAfter(run), key.account)
  {
    run := ACrashedRecord(key, payload, TakenBy(key.account, other), other);
    TheTakenChain(key.account, other, payload);
    OnlyThatRow(Runs.Run(ActionsOf(run)).rows, key, payload, PermanentAfter(run));
  }

  /** What a recorder that died before its mark left behind. */
  function SignedRow(account: Account, payload: nat): Row {
    Row(0, NO_DEADLINE, Raw(account, 0, payload), Signed, None, 0)
  }

  lemma OnlyThatRow(rows: Rows, key: Key, payload: nat, permanent: Blocks)
    requires rows == map[key := SignedRow(key.account, payload)]
    requires Chain.Valid(permanent) && Count(permanent, key.account) == 1 && !Holds(permanent, Raw(key.account, 0, payload))
    ensures NeverSentAndSpent(rows, key, permanent) && !Freeable(rows, permanent, key.account)
  {
    NothingFreesIt(rows, key, permanent);
  }

  lemma ACrashedRecord(key: Key, payload: nat, permanent: Blocks, other: nat) returns (run: seq<Happening>)
    requires payload != other && permanent == TakenBy(key.account, other)
    ensures Grounded(run) && Runs.HonestRun(ActionsOf(run)) && Runs.FreshRun(ActionsOf(run))
    ensures Runs.Run(ActionsOf(run)).rows == map[key := SignedRow(key.account, payload)] && PermanentAfter(run) == permanent
  {
    var account := key.account;
    var sign := (n: nat) => Some(SignedIntent(n, NO_DEADLINE, Raw(account, n, payload)));
    TheTakenChain(account, other, payload);
    TwoAreGrounded(Runs.Record(key, 0, sign), Runs.Die(key), permanent);
    RecordAndDie(key, sign);
    run := TwoHappenings(Runs.Record(key, 0, sign), Runs.Die(key), permanent);
  }

  /** A row signed and never sent, whose number others have spent for good. */
  ghost predicate NeverSentAndSpent(rows: Rows, key: Key, permanent: Blocks) {
    && key in rows && rows[key].status.Signed? && rows[key].nonce == rows[key].raw.nonce && rows[key].raw.account == key.account
    && rows[key].nonce < Count(permanent, key.account) && !Holds(permanent, rows[key].raw)
  }

  lemma NothingFreesIt(rows: Rows, key: Key, permanent: Blocks)
    requires NeverSentAndSpent(rows, key, permanent) && Chain.Valid(permanent) && rows.Keys == {key}
    requires rows[key].acceptBy == NO_DEADLINE
    ensures !Freeable(rows, permanent, key.account)
  {
    FreeableIff(rows, permanent, key.account);
  }

  function TwoHappenings(first: Runs.Action, second: Runs.Action, permanent: Blocks): seq<Happening> {
    [] + [Happening(first, FromSending, [])] + [Happening(second, FromSending, permanent)]
  }

  lemma TwoAreGrounded(first: Runs.Action, second: Runs.Action, permanent: Blocks)
    requires !first.Move? && !second.Move? && Chain.Valid(permanent)
    ensures var run := TwoHappenings(first, second, permanent);
      Grounded(run) && ActionsOf(run) == [] + [first] + [second] && PermanentAfter(run) == permanent
  {
    var none: seq<Happening> := [];
    var nothing: Blocks := [];
    assert Txs(nothing) == [];
    OneMoreHappening(none, Happening(first, FromSending, []));
    OneMoreHappening(none + [Happening(first, FromSending, [])], Happening(second, FromSending, permanent));
  }

  /** A chain on which somebody else's bytes spent this wallet's first number. */
  function TakenBy(account: Account, other: nat): Blocks {
    [] + [Block(0, [Mined(Raw(account, 0, other), true)])]
  }

  lemma {:induction false} OneMoreHappening(run: seq<Happening>, h: Happening)
    requires Grounded(run) && !h.action.Move? && Chain.Valid(h.permanent) && PermanentAfter(run) <= h.permanent
    ensures Grounded(run + [h])
    ensures ActionsOf(run + [h]) == ActionsOf(run) + [h.action] && PermanentAfter(run + [h]) == h.permanent
  {
    assert (run + [h])[..|run|] == run;
  }

  /** A recorder that dies before its mark leaves exactly one row, as it signed it. */
  lemma RecordAndDie(key: Key, sign: nat -> Option<SignedIntent>)
    requires sign(0).Some? && sign(0).value.nonce == 0 && sign(0).value.raw.account == key.account && sign(0).value.raw.nonce == 0
    ensures var actions := [] + [Runs.Record(key, 0, sign)] + [Runs.Die(key)];
      && Runs.HonestRun(actions) && Runs.FreshRun(actions)
      && Runs.Run(actions).rows == map[key := Row(0, sign(0).value.acceptBy, sign(0).value.raw, Signed, None, 0)]
  {
    var none: seq<Runs.Action> := [];
    var record, die := Runs.Record(key, 0, sign), Runs.Die(key);
    RecordingOne(key, sign);
    Runs.OneMore(none, record);
    Runs.OneMore(none + [record], die);
    FreshToo(none, record);
    FreshToo(none + [record], die);
  }

  lemma {:induction false} FreshToo(actions: seq<Runs.Action>, action: Runs.Action)
    requires Runs.FreshRun(actions) && Runs.Fresh(Runs.Run(actions), action)
    ensures Runs.FreshRun(actions + [action])
  {
    assert (actions + [action])[..|actions|] == actions;
  }

  lemma RecordingOne(key: Key, sign: nat -> Option<SignedIntent>)
    ensures NextNonce(map[], key.account, 0) == 0
    ensures sign(0).Some? && sign(0).value.nonce == 0 ==>
      RecordOutcome(map[], key, 0, sign) == Created(Row(0, sign(0).value.acceptBy, sign(0).value.raw, Signed, None, 0))
  {
    TopIsAbove(LiveNonces(map[], key.account));
    assert LiveNonces(map[], key.account) == {} && Blocking(map[], key.account) == {};
  }

  lemma TheTakenChain(account: Account, other: nat, payload: nat)
    requires payload != other
    ensures var taken := TakenBy(account, other);
      Chain.Valid(taken) && Count(taken, account) == 1 && !Holds(taken, Raw(account, 0, payload))
  {
    var nothing: Blocks := [];
    var mined := Mined(Raw(account, 0, other), true);
    assert Txs(nothing) == [];
    TxResolve.IncludingItIsValid(nothing, mined.raw, 0, true);
    assert Txs(TakenBy(account, other)) == [mined];
    assert [mined][..0] == [];
  }
}
