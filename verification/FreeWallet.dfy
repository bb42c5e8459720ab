/**
 * Whether a wallet can be freed: passes of `_tx_resolve` in wrasse/cli.py over all the rows of
 * one wallet, on a chain that grows only by what those rows have sent.
 */
module FreeWallet {
  import opened Chain
  import opened Constants
  import opened Ledger
  import opened Numeric
  import opened Resolver
  import opened TxResolve

  /** One row's pass, on nodes that agree on a chain. */
  datatype Turn = Turn(key: Key, pass: Pass)

  function TipOf(turn: Turn): Blocks {
    turn.pass.resolving.blocks
  }

  function AfterTurn(rows: Rows, turn: Turn): Rows
    requires turn.key in rows
  {
    Resolving(rows, turn.key, rows[turn.key], turn.pass).rows
  }

  /** What the chain gained of this wallet's, its rows had sent: bytes of a row not yet given up and past `SIGNED`. */
  ghost predicate Carries(rows: Rows, before: Blocks, after: Blocks, account: Account) {
    forall p :: |Txs(before)| <= p < |Txs(after)| && Txs(after)[p].raw.account == account ==>
      SentBy(rows, account, Txs(after)[p].raw)
  }

  ghost predicate SentBy(rows: Rows, account: Account, raw: Raw) {
    exists k :: Waits(rows, account, k) && rows[k].raw == raw && !rows[k].status.Signed?
  }

  /** A turn the world allows from here: every node on one valid chain, which has only grown, and only by what was sent. */
  ghost predicate TurnAllowed(rows: Rows, blocks: Blocks, account: Account, turn: Turn) {
    && turn.key in rows && turn.key.account == account
    && blocks <= TipOf(turn) && Chain.Valid(TipOf(turn)) && Carries(rows, blocks, TipOf(turn), account)
    && turn.pass.confirming.blocks == TipOf(turn)
    && (turn.pass.fallback.Answering? ==> turn.pass.fallback.view.blocks == TipOf(turn))
  }

  ghost predicate Lawful(rows: Rows, blocks: Blocks, account: Account, turns: seq<Turn>)
    decreases |turns|
  {
    turns == [] ||
    (TurnAllowed(rows, blocks, account, turns[0]) && Lawful(AfterTurn(rows, turns[0]), TipOf(turns[0]), account, turns[1..]))
  }

  ghost function AfterTurns(rows: Rows, blocks: Blocks, account: Account, turns: seq<Turn>): (Rows, Blocks)
    requires Lawful(rows, blocks, account, turns)
    decreases |turns|
  {
    if turns == [] then (rows, blocks) else AfterTurns(AfterTurn(rows, turns[0]), TipOf(turns[0]), account, turns[1..])
  }

  /** A row there is nothing left to wait for: it is terminal, or included in a block the chain still has. */
  predicate Done(row: Row, blocks: Blocks) {
    Terminal(row.status) || (IsIncluded(row.status) && Holds(blocks, row.raw))
  }

  function Undone(rows: Rows, blocks: Blocks, account: Account): set<Key> {
    set k | k in rows && k.account == account && !Done(rows[k], blocks)
  }

  /** Every row of the wallet is done, whatever blocks have come and gone. */
  ghost predicate Freed(rows: Rows, blocks: Blocks, account: Account) {
    Undone(rows, blocks, account) == {}
  }

  /** A freed wallet has nothing that stops the next record. */
  lemma FreedMeansNothingBlocks(rows: Rows, blocks: Blocks, account: Account)
    requires Freed(rows, blocks, account)
    ensures Blocking(rows, account) == {}
  {
    forall k | k in rows && k.account == account ensures k !in Blocking(rows, account) {
      assert k !in Undone(rows, blocks, account);
    }
  }

  /** Some run of the resolver, over some growth of the chain, frees the wallet. */
  ghost predicate Freeable(rows: Rows, blocks: Blocks, account: Account) {
    exists turns :: Lawful(rows, blocks, account, turns) && FreedBy(rows, blocks, account, turns)
  }

  ghost predicate FreedBy(rows: Rows, blocks: Blocks, account: Account, turns: seq<Turn>)
    requires Lawful(rows, blocks, account, turns)
  {
    var (after, tip) := AfterTurns(rows, blocks, account, turns);
    Freed(after, tip, account)
  }

  // ---------------------------------------------------------------------------------------
  // The condition
  // ---------------------------------------------------------------------------------------

  /** A row not yet given up holds this number. */
  ghost predicate Held(rows: Rows, account: Account, nonce: nat) {
    exists k :: Waits(rows, account, k) && rows[k].nonce == nonce
  }

  /** From the chain's count up to each row still waiting, no number is missing. */
  ghost predicate NoHole(rows: Rows, blocks: Blocks, account: Account) {
    forall k, n :: Waits(rows, account, k) && Count(blocks, account) <= n < rows[k].nonce ==> Held(rows, account, n)
  }

  /** No row that was never sent has had its number spent. */
  ghost predicate NoSignedSpent(rows: Rows, blocks: Blocks, account: Account) {
    forall k :: k in rows && k.account == account && rows[k].status.Signed? ==> Count(blocks, account) <= rows[k].nonce
  }

  /** What the ledger keeps of one wallet whose waiting rows have no deadline. */
  ghost predicate Wallet(rows: Rows, blocks: Blocks, account: Account) {
    && Chain.Valid(blocks)
    && (forall k :: k in rows && k.account == account ==> rows[k].raw.account == account && Truthful(rows[k]))
    && (forall j, k :: Waits(rows, account, j) && Waits(rows, account, k) && j != k ==> rows[j].nonce != rows[k].nonce)
    && (forall k :: Waits(rows, account, k) ==> rows[k].acceptBy == NO_DEADLINE)
  }

  /** A row of this wallet that is not yet given up. */
  predicate Waits(rows: Rows, account: Account, k: Key) {
    k in rows && k.account == account && !Terminal(rows[k].status)
  }

  // ---------------------------------------------------------------------------------------
  // One turn
  // ---------------------------------------------------------------------------------------

  /** Bytes whose number the chain has not reached are not in it. */
  lemma UnreachedIsUnmined(blocks: Blocks, raw: Raw)
    requires Chain.Valid(blocks) && Count(blocks, raw.account) <= raw.nonce
    ensures !Holds(blocks, raw)
  {
    var txs := Txs(blocks);
    forall p | 0 <= p < |txs| ensures txs[p].raw != raw {
      CountGrows(txs, p, txs[p].raw.account);
    }
  }

  lemma ViewsAreFaithful(v: View)
    requires Chain.Valid(v.blocks)
    ensures Faithful(v, v.blocks)
  {
  }

  /** A turn changes its own row's status and block, keeps it truthful, and leaves every other row alone. */
  lemma ATurnKeepsTheWallet(rows: Rows, blocks: Blocks, account: Account, turn: Turn)
    requires Wallet(rows, blocks, account) && TurnAllowed(rows, blocks, account, turn)
    requires !Terminal(rows[turn.key].status)
    ensures Wallet(AfterTurn(rows, turn), TipOf(turn), account)
    ensures OnlyRow(rows, turn.key, AfterTurn(rows, turn))
  {
    var seen := rows[turn.key];
    ViewsAreFaithful(turn.pass.resolving);
    ViewsAreFaithful(turn.pass.confirming);
    if turn.pass.fallback.Answering? {
      ViewsAreFaithful(turn.pass.fallback.view);
    }
    APassTouchesOneRow(rows, turn.key, seen, turn.pass);
    APassWritesWhatIsSo(rows, turn.key, turn.pass, TipOf(turn));
    NothingComesBack(rows, turn);
  }

  /** A pass over a row not yet given up is the only thing that can end it, and nothing ended is reopened. */
  lemma NothingComesBack(rows: Rows, turn: Turn)
    requires turn.key in rows
    ensures turn.key in AfterTurn(rows, turn)
    ensures Terminal(rows[turn.key].status) ==> AfterTurn(rows, turn) == rows
  {
    APassTouchesOneRow(rows, turn.key, rows[turn.key], turn.pass);
  }

  /** Two nodes on one chain, both with their safe head at its tip and nothing unmined, and an operator willing to resend. */
  function Calm(account: Account, blocks: Blocks): Pass {
    var view := View(account.chainId, blocks, Some(|blocks|), {}, map[]);
    Pass(view, Answering(view), view, Clock(Some(0), 0, 0), true, true, Some(0), true, Accepted)
  }

  /** An included row whose block is gone is found reorganised. */
  lemma AGoneBlockReopens(rows: Rows, key: Key, blocks: Blocks)
    requires key in rows && IsIncluded(rows[key].status) && Truthful(rows[key]) && !Holds(blocks, rows[key].raw)
    ensures var after := AfterTurn(rows, Turn(key, Calm(key.account, blocks)));
      key in after && after[key].status.Reorged?
  {
    ABlockStillThere(rows[key], blocks);
  }

  lemma ABlockStillThere(row: Row, blocks: Blocks)
    requires IsIncluded(row.status) && Truthful(row)
    ensures var at := row.block.value;
      at.number < |blocks| && blocks[at.number] == at.hash ==> Holds(blocks, row.raw)
  {
    var at := row.block.value;
    if at.number < |blocks| && blocks[at.number] == at.hash {
      var mined := Mined(row.raw, row.status.IncludedSuccess?);
      ABlockIsPartOfTheChain(blocks, at.number, mined);
      var p :| 0 <= p < |Txs(blocks)| && Txs(blocks)[p] == mined;
      assert Txs(blocks)[p].raw == row.raw;
    }
  }

  /** A sent row whose number is spent ends: confirmed if its own bytes spent it, consumed if others did. */
  lemma ASpentNumberEnds(rows: Rows, key: Key, blocks: Blocks)
    requires key in rows && !Terminal(rows[key].status) && !IsIncluded(rows[key].status) && !rows[key].status.Signed?
    requires rows[key].raw.account == key.account && rows[key].nonce < Count(blocks, key.account)
    ensures var after := AfterTurn(rows, Turn(key, Calm(key.account, blocks)));
      key in after && Terminal(after[key].status)
  {
    if Holds(blocks, rows[key].raw) {
      AMinedRowIsConfirmed(rows, key, blocks);
    }
  }

  lemma AMinedRowIsConfirmed(rows: Rows, key: Key, blocks: Blocks)
    requires key in rows && !Terminal(rows[key].status) && !IsIncluded(rows[key].status) && !rows[key].status.Signed?
    requires Holds(blocks, rows[key].raw)
    ensures var after := AfterTurn(rows, Turn(key, Calm(key.account, blocks)));
      key in after && Terminal(after[key].status)
  {
    var pass := Calm(key.account, blocks);
    var receipt := ReceiptOf(blocks, rows[key].raw).value;
    var written := Writing(rows, key, rows[key], Included(receipt).status, Some(receipt.at), false);
    assert written.report.Written?;
    WhatConfirmationTakes(written.report.row, pass.confirming);
  }

  /** A waiting row whose number the chain has not reached is resent. */
  lemma AnUnreachedRowIsResent(rows: Rows, key: Key, blocks: Blocks)
    requires key in rows && !Terminal(rows[key].status) && !IsIncluded(rows[key].status)
    requires Chain.Valid(blocks) && rows[key].raw.account == key.account && rows[key].raw.nonce == rows[key].nonce
    requires Count(blocks, key.account) <= rows[key].nonce && rows[key].acceptBy == NO_DEADLINE
    ensures var after := AfterTurn(rows, Turn(key, Calm(key.account, blocks)));
      key in after && after[key].status.Pending? && OnlyRow(rows, key, after)
  {
    UnreachedIsUnmined(blocks, rows[key].raw);
    ResendLeavesItWaiting(rows, key, Calm(key.account, blocks));
    APassTouchesOneRow(rows, key, rows[key], Calm(key.account, blocks));
  }

  // ---------------------------------------------------------------------------------------
  // A way to free it
  // ---------------------------------------------------------------------------------------

  /** Included rows whose blocks are gone. */
  function Gone(rows: Rows, blocks: Blocks, account: Account): set<Key> {
    set k | k in rows && k.account == account && IsIncluded(rows[k].status) && !Holds(blocks, rows[k].raw)
  }

  /** The wallet as the way out needs it. */
  ghost predicate Open(rows: Rows, blocks: Blocks, account: Account) {
    Wallet(rows, blocks, account) && NoHole(rows, blocks, account) && NoSignedSpent(rows, blocks, account)
  }

  lemma HoldsStays(blocks: Blocks, later: Blocks, raw: Raw)
    requires blocks <= later && Holds(blocks, raw)
    ensures Holds(later, raw)
  {
    TxsOfAPrefix(blocks, later);
    var p :| 0 <= p < |Txs(blocks)| && Txs(blocks)[p].raw == raw;
    assert Txs(later)[p].raw == raw;
  }

  /** One row changed and no other, on this chain or one that carries more: what is done stays done. */
  lemma OneFewer(rows: Rows, after: Rows, key: Key, blocks: Blocks, later: Blocks, account: Account)
    requires key in rows && key.account == account && OnlyRow(rows, key, after) && blocks <= later
    ensures Undone(after, later, account) <= Undone(rows, blocks, account) + {key}
    ensures Gone(after, later, account) <= Gone(rows, blocks, account) + {key}
    ensures Terminal(after[key].status) ==> Undone(after, later, account) <= Undone(rows, blocks, account) - {key}
    ensures !IsIncluded(after[key].status) ==> Gone(after, later, account) <= Gone(rows, blocks, account) - {key}
  {
    forall k | k in rows && Holds(blocks, rows[k].raw) ensures Holds(later, rows[k].raw) {
      HoldsStays(blocks, later, rows[k].raw);
    }
  }

  /** Marking one row in place, or ending one whose number is spent, opens no hole. */
  lemma StaysOpen(rows: Rows, after: Rows, key: Key, blocks: Blocks, later: Blocks, account: Account)
    requires Open(rows, blocks, account) && Waits(rows, account, key) && OnlyRow(rows, key, after)
    requires Wallet(after, later, account) && Count(blocks, account) <= Count(later, account)
    requires !Terminal(after[key].status) || rows[key].nonce < Count(later, account)
    requires !after[key].status.Signed?
    requires forall k :: Waits(rows, account, k) && k != key && Count(blocks, account) <= rows[k].nonce ==> Count(later, account) <= rows[k].nonce
    ensures Open(after, later, account)
  {
    forall k, n | Waits(after, account, k) && Count(later, account) <= n < after[k].nonce ensures Held(after, account, n) {
      assert Waits(rows, account, k) && Held(rows, account, n);
      var j :| Waits(rows, account, j) && rows[j].nonce == n;
      assert Waits(after, account, j) && after[j].nonce == n;
    }
  }

  lemma CalmIsAllowed(rows: Rows, blocks: Blocks, account: Account, key: Key, later: Blocks)
    requires key in rows && key.account == account && blocks <= later && Chain.Valid(later) && Carries(rows, blocks, later, account)
    ensures TurnAllowed(rows, blocks, account, Turn(key, Calm(account, later)))
  {
  }

  /** Prepending an allowed turn to a way out from where it leads. */
  lemma {:induction false} FirstThen(rows: Rows, blocks: Blocks, account: Account, turn: Turn, rest: seq<Turn>)
    requires TurnAllowed(rows, blocks, account, turn)
    requires Lawful(AfterTurn(rows, turn), TipOf(turn), account, rest)
    requires FreedBy(AfterTurn(rows, turn), TipOf(turn), account, rest)
    ensures Lawful(rows, blocks, account, [turn] + rest) && FreedBy(rows, blocks, account, [turn] + rest)
  {
    assert ([turn] + rest)[0] == turn && ([turn] + rest)[1..] == rest;
  }

  /** One turn on the chain as it stands. */
  lemma TurnInPlace(rows: Rows, blocks: Blocks, account: Account, key: Key)
    requires Open(rows, blocks, account) && Waits(rows, account, key)
    ensures var turn := Turn(key, Calm(account, blocks));
      && TurnAllowed(rows, blocks, account, turn)
      && Wallet(AfterTurn(rows, turn), blocks, account)
      && OnlyRow(rows, key, AfterTurn(rows, turn))
  {
    CalmIsAllowed(rows, blocks, account, key, blocks);
    ATurnKeepsTheWallet(rows, blocks, account, Turn(key, Calm(account, blocks)));
  }

  /** The lowest row the chain has not reached is the one it can take next. */
  lemma TheNextNumber(rows: Rows, blocks: Blocks, account: Account, k: Key) returns (next: Key)
    requires Open(rows, blocks, account) && Waits(rows, account, k) && Count(blocks, account) <= rows[k].nonce
    ensures Waits(rows, account, next) && rows[next].nonce == Count(blocks, account)
  {
    if rows[k].nonce == Count(blocks, account) {
      return k;
    }
    assert Held(rows, account, Count(blocks, account));
    next :| Waits(rows, account, next) && rows[next].nonce == Count(blocks, account);
  }

  /** The chain with one row's bytes on top. */
  function Including(blocks: Blocks, raw: Raw): Blocks {
    blocks + [Block(0, [Mined(raw, true)])]
  }

  lemma IncludingCounts(rows: Rows, blocks: Blocks, account: Account, key: Key)
    requires Chain.Valid(blocks) && Waits(rows, account, key) && !rows[key].status.Signed?
    requires rows[key].raw.account == account && rows[key].raw.nonce == Count(blocks, account)
    ensures var later := Including(blocks, rows[key].raw);
      && Chain.Valid(later) && blocks <= later && Count(later, account) == Count(blocks, account) + 1
      && Carries(rows, blocks, later, account)
  {
    var raw := rows[key].raw;
    IncludingItIsValid(blocks, raw, 0, true);
    var longer := Txs(Including(blocks, raw));
    assert longer[..|longer| - 1] == Txs(blocks) && longer[|longer| - 1] == Mined(raw, true);
    assert SentBy(rows, account, raw);
  }

  lemma {:induction false} FreeIt(rows: Rows, blocks: Blocks, account: Account) returns (turns: seq<Turn>)
    requires Open(rows, blocks, account)
    ensures Lawful(rows, blocks, account, turns) && FreedBy(rows, blocks, account, turns)
    decreases |Undone(rows, blocks, account)|, |Gone(rows, blocks, account)|
  {
    if Undone(rows, blocks, account) == {} {
      return [];
    }
    if k :| k in Gone(rows, blocks, account) {
      turns := ReopenFirst(rows, blocks, account, k);
    } else if k :| k in Undone(rows, blocks, account) && rows[k].nonce < Count(blocks, account) {
      turns := EndFirst(rows, blocks, account, k);
    } else {
      var k :| k in Undone(rows, blocks, account);
      var next := TheNextNumber(rows, blocks, account, k);
      turns := IncludeFirst(rows, blocks, account, next);
    }
  }

  lemma {:induction false} ReopenFirst(rows: Rows, blocks: Blocks, account: Account, key: Key) returns (turns: seq<Turn>)
    requires Open(rows, blocks, account) && key in Gone(rows, blocks, account)
    ensures Lawful(rows, blocks, account, turns) && FreedBy(rows, blocks, account, turns)
    decreases |Undone(rows, blocks, account)|, |Gone(rows, blocks, account)|, 0
  {
    var turn := Turn(key, Calm(account, blocks));
    var after := AfterTurn(rows, turn);
    TurnInPlace(rows, blocks, account, key);
    AGoneBlockReopens(rows, key, blocks);
    OneFewer(rows, after, key, blocks, blocks, account);
    StaysOpen(rows, after, key, blocks, blocks, account);
    Smaller(Undone(after, blocks, account), Undone(rows, blocks, account), key);
    Smaller(Gone(after, blocks, account), Gone(rows, blocks, account), key);
    turns := FreeIt(after, blocks, account);
    FirstThen(rows, blocks, account, turn, turns);
    turns := [turn] + turns;
  }

  lemma Smaller(a: set<Key>, b: set<Key>, key: Key)
    requires key in b && a <= b
    ensures |a| <= |b| && (a <= b - {key} ==> |a| < |b|)
  {
    SubsetIsNoLarger(a, b);
    if a <= b - {key} {
      SubsetIsNoLarger(a, b - {key});
    }
  }

  lemma {:induction false} EndFirst(rows: Rows, blocks: Blocks, account: Account, key: Key) returns (turns: seq<Turn>)
    requires Open(rows, blocks, account) && key in Undone(rows, blocks, account) && key !in Gone(rows, blocks, account)
    requires rows[key].nonce < Count(blocks, account)
    ensures Lawful(rows, blocks, account, turns) && FreedBy(rows, blocks, account, turns)
    decreases |Undone(rows, blocks, account)|, |Gone(rows, blocks, account)|, 0
  {
    var turn := Turn(key, Calm(account, blocks));
    var after := AfterTurn(rows, turn);
    TurnInPlace(rows, blocks, account, key);
    ASpentNumberEnds(rows, key, blocks);
    OneFewer(rows, after, key, blocks, blocks, account);
    StaysOpen(rows, after, key, blocks, blocks, account);
    Smaller(Undone(after, blocks, account), Undone(rows, blocks, account), key);
    turns := FreeIt(after, blocks, account);
    FirstThen(rows, blocks, account, turn, turns);
    turns := [turn] + turns;
  }

  lemma {:induction false} IncludeFirst(rows: Rows, blocks: Blocks, account: Account, key: Key) returns (turns: seq<Turn>)
    requires Open(rows, blocks, account) && Waits(rows, account, key) && key !in Gone(rows, blocks, account)
    requires rows[key].nonce == Count(blocks, account)
    ensures Lawful(rows, blocks, account, turns) && FreedBy(rows, blocks, account, turns)
    decreases |Undone(rows, blocks, account)|, |Gone(rows, blocks, account)|, 0
  {
    var resend := Turn(key, Calm(account, blocks));
    ResendFirst(rows, blocks, account, key);
    turns := EndOnTop(AfterTurn(rows, resend), blocks, account, key, |Undone(rows, blocks, account)|, |Gone(rows, blocks, account)|);
    FirstThen(rows, blocks, account, resend, turns);
    turns := [resend] + turns;
  }

  lemma ResendFirst(rows: Rows, blocks: Blocks, account: Account, key: Key)
    requires Open(rows, blocks, account) && Waits(rows, account, key) && key !in Gone(rows, blocks, account)
    requires rows[key].nonce == Count(blocks, account)
    ensures var resend := Turn(key, Calm(account, blocks)); var sent := AfterTurn(rows, resend);
      && TurnAllowed(rows, blocks, account, resend)
      && Open(sent, blocks, account) && Waits(sent, account, key) && sent[key].status.Pending?
      && sent[key].nonce == Count(blocks, account)
      && |Undone(sent, blocks, account)| <= |Undone(rows, blocks, account)|
  {
    UnreachedIsUnmined(blocks, rows[key].raw);
    var sent := AfterTurn(rows, Turn(key, Calm(account, blocks)));
    TurnInPlace(rows, blocks, account, key);
    AnUnreachedRowIsResent(rows, key, blocks);
    OneFewer(rows, sent, key, blocks, blocks, account);
    StaysOpen(rows, sent, key, blocks, blocks, account);
    Smaller(Undone(sent, blocks, account), Undone(rows, blocks, account), key);
  }

  /** The chain includes a row's bytes, and the next pass ends it. */
  lemma {:induction false} EndOnTop(sent: Rows, blocks: Blocks, account: Account, key: Key, u: nat, g: nat)
    returns (turns: seq<Turn>)
    requires Open(sent, blocks, account) && Waits(sent, account, key) && sent[key].status.Pending?
    requires sent[key].nonce == Count(blocks, account)
    requires |Undone(sent, blocks, account)| <= u
    ensures Lawful(sent, blocks, account, turns) && FreedBy(sent, blocks, account, turns)
    decreases u, g, 0, 0
  {
    var later := Including(blocks, sent[key].raw);
    var turn := Turn(key, Calm(account, later));
    EndingOnTop(sent, blocks, account, key);
    turns := FreeIt(AfterTurn(sent, turn), later, account);
    FirstThen(sent, blocks, account, turn, turns);
    turns := [turn] + turns;
  }

  lemma EndingOnTop(sent: Rows, blocks: Blocks, account: Account, key: Key)
    requires Open(sent, blocks, account) && Waits(sent, account, key) && sent[key].status.Pending?
    requires sent[key].nonce == Count(blocks, account)
    ensures var later := Including(blocks, sent[key].raw); var turn := Turn(key, Calm(account, later));
      && TurnAllowed(sent, blocks, account, turn)
      && Open(AfterTurn(sent, turn), later, account)
      && |Undone(AfterTurn(sent, turn), later, account)| < |Undone(sent, blocks, account)|
  {
    var later := Including(blocks, sent[key].raw);
    IncludingCounts(sent, blocks, account, key);
    CalmIsAllowed(sent, blocks, account, key, later);
    ATurnKeepsTheWallet(sent, blocks, account, Turn(key, Calm(account, later)));
    ASpentNumberEnds(sent, key, later);
    OneEnded(sent, AfterTurn(sent, Turn(key, Calm(account, later))), blocks, later, account, key);
  }

  /** The lowest row the chain had not reached is over, and the chain is past its number. */
  lemma OneEnded(sent: Rows, after: Rows, blocks: Blocks, later: Blocks, account: Account, key: Key)
    requires Open(sent, blocks, account) && Waits(sent, account, key) && sent[key].status.Pending?
    requires sent[key].nonce == Count(blocks, account) && Count(later, account) == Count(blocks, account) + 1
    requires blocks <= later && OnlyRow(sent, key, after) && Wallet(after, later, account) && Terminal(after[key].status)
    ensures Open(after, later, account)
    ensures |Undone(after, later, account)| < |Undone(sent, blocks, account)|
  {
    assert key in Undone(sent, blocks, account);
    OneFewer(sent, after, key, blocks, later, account);
    StaysOpen(sent, after, key, blocks, later, account);
    Smaller(Undone(after, later, account), Undone(sent, blocks, account), key);
  }

  // ---------------------------------------------------------------------------------------
  // What no turn can get past
  // ---------------------------------------------------------------------------------------

  /** A row above a number nobody holds, or a row never sent whose number is spent. */
  ghost predicate Trapped(rows: Rows, blocks: Blocks, account: Account, key: Key, hole: nat) {
    && Waits(rows, account, key)
    && (|| (Count(blocks, account) <= hole < rows[key].nonce && !Held(rows, account, hole))
        || (rows[key].status.Signed? && rows[key].nonce < Count(blocks, account)))
  }

  /** A chain that carries nothing with this number stops before it. */
  lemma {:induction false} CountStopsAt(blocks: Blocks, later: Blocks, account: Account, hole: nat)
    requires Chain.Valid(later) && blocks <= later && Count(blocks, account) <= hole
    requires forall p :: |Txs(blocks)| <= p < |Txs(later)| && Txs(later)[p].raw.account == account ==> Txs(later)[p].raw.nonce != hole
    ensures Count(later, account) <= hole
  {
    TxsOfAPrefix(blocks, later);
    CountStopsWithin(Txs(blocks), Txs(later), |Txs(later)|, account, hole);
    assert Txs(later)[..|Txs(later)|] == Txs(later);
  }

  lemma {:induction false} CountStopsWithin(shorter: seq<Mined>, longer: seq<Mined>, n: nat, account: Account, hole: nat)
    requires InNonceOrder(longer) && shorter <= longer && |shorter| <= n <= |longer| && CountIn(shorter, account) <= hole
    requires forall p :: |shorter| <= p < |longer| && longer[p].raw.account == account ==> longer[p].raw.nonce != hole
    ensures CountIn(longer[..n], account) <= hole
    decreases n
  {
    if n == |shorter| {
      assert longer[..n] == shorter;
    } else {
      CountStopsWithin(shorter, longer, n - 1, account, hole);
      assert longer[..n][..n - 1] == longer[..n - 1];
      assert longer[..n][n - 1] == longer[n - 1];
    }
  }

  /** A count never falls as the chain grows. */
  lemma CountNeverFalls(blocks: Blocks, later: Blocks, account: Account)
    requires blocks <= later
    ensures Count(blocks, account) <= Count(later, account)
  {
    TxsOfAPrefix(blocks, later);
    assert Txs(later)[..|Txs(blocks)|] == Txs(blocks);
    CountGrows(Txs(later), |Txs(blocks)|, account);
  }

  /** A pass over a row the chain has not reached cannot end it. */
  lemma AnUnreachedRowWaits(rows: Rows, turn: Turn)
    requires turn.key in rows && !Terminal(rows[turn.key].status) && Truthful(rows[turn.key])
    requires rows[turn.key].raw.account == turn.key.account && Chain.Valid(TipOf(turn))
    requires Count(TipOf(turn), turn.key.account) <= rows[turn.key].nonce && turn.pass.confirming.blocks == TipOf(turn)
    ensures turn.key in AfterTurn(rows, turn) && !Terminal(AfterTurn(rows, turn)[turn.key].status)
  {
    UnreachedIsUnmined(TipOf(turn), rows[turn.key].raw);
    if IsIncluded(rows[turn.key].status) {
      ABlockStillThere(rows[turn.key], TipOf(turn));
    } else {
      AnUnreachedVerdict(rows[turn.key], turn.pass);
      ResendingNeverEnds(rows, turn.key, turn.pass);
    }
  }

  /** What a node says of a row it has not reached neither includes nor ends it. */
  lemma AnUnreachedVerdict(row: Row, pass: Pass)
    requires !Holds(pass.resolving.blocks, row.raw) && Latest(pass.resolving, row.raw.account) <= row.nonce
    ensures var verdict := Resolve(row, pass.resolving, pass.fallback, pass.clock);
      verdict.Ok? && verdict.value.Known? ==> !Terminal(verdict.value.status) && !IsIncluded(verdict.value.status)
  {
  }

  lemma ResendingNeverEnds(rows: Rows, key: Key, pass: Pass)
    requires key in rows && !Terminal(rows[key].status)
    ensures key in Resending(rows, key, rows[key], pass).rows && !Terminal(Resending(rows, key, rows[key], pass).rows[key].status)
  {
  }

  /** A pass over a row never sent, whose number is spent, writes nothing. */
  lemma ASpentSignedRowStays(rows: Rows, turn: Turn)
    requires turn.key in rows && rows[turn.key].status.Signed?
    requires rows[turn.key].nonce < Count(TipOf(turn), rows[turn.key].raw.account)
    ensures AfterTurn(rows, turn) == rows
  {
  }

  lemma ATurnKeepsTheTrap(rows: Rows, blocks: Blocks, account: Account, turn: Turn, key: Key, hole: nat)
    requires Wallet(rows, blocks, account) && Trapped(rows, blocks, account, key, hole)
    requires TurnAllowed(rows, blocks, account, turn)
    ensures Wallet(AfterTurn(rows, turn), TipOf(turn), account)
    ensures Trapped(AfterTurn(rows, turn), TipOf(turn), account, key, hole)
  {
    NothingComesBack(rows, turn);
    var after := AfterTurn(rows, turn);
    if Terminal(rows[turn.key].status) {
      WalletOnLater(rows, blocks, TipOf(turn), account);
    } else {
      ATurnKeepsTheWallet(rows, blocks, account, turn);
    }
    APassTouchesOneRow(rows, turn.key, rows[turn.key], turn.pass);
    CountNeverFalls(blocks, TipOf(turn), account);
    if Count(blocks, account) <= hole < rows[key].nonce && !Held(rows, account, hole) {
      TheHoleStays(rows, blocks, account, turn, hole);
      if turn.key == key {
        AnUnreachedRowWaits(rows, turn);
      }
    } else if turn.key == key {
      ASpentSignedRowStays(rows, turn);
    }
  }

  lemma WalletOnLater(rows: Rows, blocks: Blocks, later: Blocks, account: Account)
    requires Wallet(rows, blocks, account) && Chain.Valid(later)
    ensures Wallet(rows, later, account)
  {
  }

  lemma TheHoleStays(rows: Rows, blocks: Blocks, account: Account, turn: Turn, hole: nat)
    requires Wallet(rows, blocks, account) && TurnAllowed(rows, blocks, account, turn)
    requires Count(blocks, account) <= hole && !Held(rows, account, hole)
    ensures Count(TipOf(turn), account) <= hole && !Held(AfterTurn(rows, turn), account, hole)
  {
    var tip := TipOf(turn);
    forall p | |Txs(blocks)| <= p < |Txs(tip)| && Txs(tip)[p].raw.account == account ensures Txs(tip)[p].raw.nonce != hole {
      assert SentBy(rows, account, Txs(tip)[p].raw);
      var k :| Waits(rows, account, k) && rows[k].raw == Txs(tip)[p].raw && !rows[k].status.Signed?;
      assert rows[k].nonce != hole;
    }
    CountStopsAt(blocks, tip, account, hole);
    APassTouchesOneRow(rows, turn.key, rows[turn.key], turn.pass);
    NothingComesBack(rows, turn);
    forall k | Waits(AfterTurn(rows, turn), account, k) ensures AfterTurn(rows, turn)[k].nonce != hole {
      assert Waits(rows, account, k);
    }
  }

  lemma {:induction false} NoTurnsFreeATrap(rows: Rows, blocks: Blocks, account: Account, turns: seq<Turn>, key: Key, hole: nat)
    requires Wallet(rows, blocks, account) && Trapped(rows, blocks, account, key, hole) && Lawful(rows, blocks, account, turns)
    ensures !FreedBy(rows, blocks, account, turns)
    decreases |turns|
  {
    if turns == [] {
      TrappedIsUndone(rows, blocks, account, key, hole);
    } else {
      ATurnKeepsTheTrap(rows, blocks, account, turns[0], key, hole);
      NoTurnsFreeATrap(AfterTurn(rows, turns[0]), TipOf(turns[0]), account, turns[1..], key, hole);
    }
  }

  lemma TrappedIsUndone(rows: Rows, blocks: Blocks, account: Account, key: Key, hole: nat)
    requires Wallet(rows, blocks, account) && Trapped(rows, blocks, account, key, hole)
    ensures key in Undone(rows, blocks, account)
  {
    if !rows[key].status.Signed? {
      UnreachedIsUnmined(blocks, rows[key].raw);
    }
  }

  /**
   * When a wallet whose waiting rows have no deadline can be freed: exactly when no number is
   * missing between the chain's count and a row still waiting, and no row that was never sent
   * has had its number spent by others. Rows a reorganisation reopened, any number of
   * them, are included again in order.
   */
  lemma FreeableIff(rows: Rows, blocks: Blocks, account: Account)
    requires Wallet(rows, blocks, account)
    ensures Freeable(rows, blocks, account) <==> NoHole(rows, blocks, account) && NoSignedSpent(rows, blocks, account)
  {
    if NoHole(rows, blocks, account) && NoSignedSpent(rows, blocks, account) {
      var turns := FreeIt(rows, blocks, account);
    } else {
      var key, hole := TheTrap(rows, blocks, account);
      forall turns | Lawful(rows, blocks, account, turns) ensures !FreedBy(rows, blocks, account, turns) {
        NoTurnsFreeATrap(rows, blocks, account, turns, key, hole);
      }
    }
  }

  lemma TheTrap(rows: Rows, blocks: Blocks, account: Account) returns (key: Key, hole: nat)
    requires !(NoHole(rows, blocks, account) && NoSignedSpent(rows, blocks, account))
    ensures Trapped(rows, blocks, account, key, hole)
  {
    if !NoHole(rows, blocks, account) {
      key, hole :| Waits(rows, account, key) && Count(blocks, account) <= hole < rows[key].nonce && !Held(rows, account, hole);
    } else {
      key :| key in rows && key.account == account && rows[key].status.Signed? && rows[key].nonce < Count(blocks, account);
      hole := 0;
    }
  }
}
