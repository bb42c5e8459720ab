/**
 * The chain a ledger row is judged against: blocks of mined payloads, each wallet's in nonce
 * order. Nodes may disagree about the tail; what is at or below a safe head is permanent.
 */
module Chain {
  import opened Constants

  datatype Account = Account(chainId: nat, wallet: Address)

  /** A signed payload, which is also its own hash: it names its signer and the nonce it spends. */
  datatype Raw = Raw(account: Account, nonce: nat, payload: nat)

  datatype Mined = Mined(raw: Raw, succeeded: bool)

  /** A block, which is also its own hash. */
  datatype Block = Block(salt: nat, txs: seq<Mined>)

  type Blocks = seq<Block>

  /** Everything mined, in order. */
  function Txs(blocks: Blocks): seq<Mined> {
    if blocks == [] then [] else Txs(blocks[..|blocks| - 1]) + blocks[|blocks| - 1].txs
  }

  /** How many of these a wallet sent: its transaction count. */
  function CountIn(txs: seq<Mined>, account: Account): nat {
    if txs == [] then 0
    else CountIn(txs[..|txs| - 1], account) + if txs[|txs| - 1].raw.account == account then 1 else 0
  }

  function Count(blocks: Blocks, account: Account): nat {
    CountIn(Txs(blocks), account)
  }

  /** Each wallet's n-th transaction spends its n-th nonce. */
  ghost predicate InNonceOrder(txs: seq<Mined>) {
    forall p :: 0 <= p < |txs| ==> txs[p].raw.nonce == CountIn(txs[..p], txs[p].raw.account)
  }

  ghost predicate Valid(blocks: Blocks) {
    InNonceOrder(Txs(blocks))
  }

  predicate IsMined(blocks: Blocks, raw: Raw, succeeded: bool) {
    Mined(raw, succeeded) in Txs(blocks)
  }

  predicate Holds(blocks: Blocks, raw: Raw) {
    exists p :: 0 <= p < |Txs(blocks)| && Txs(blocks)[p].raw == raw
  }

  lemma {:induction false} TxsOfAPrefix(shorter: Blocks, longer: Blocks)
    requires shorter <= longer
    ensures Txs(shorter) <= Txs(longer)
    decreases |longer|
  {
    if |shorter| < |longer| {
      TxsOfAPrefix(shorter, longer[..|longer| - 1]);
    } else {
      assert shorter == longer;
    }
  }

  lemma {:induction false} CountGrows(txs: seq<Mined>, n: nat, account: Account)
    requires n <= |txs|
    ensures CountIn(txs[..n], account) <= CountIn(txs, account)
    ensures n < |txs| && txs[n].raw.account == account ==> CountIn(txs[..n], account) < CountIn(txs, account)
    decreases |txs|
  {
    if n < |txs| {
      CountGrows(txs[..|txs| - 1], n, account);
      assert txs[..|txs| - 1][..n] == txs[..n];
    } else {
      assert txs[..n] == txs;
    }
  }

  /** A payload is mined once at most: two places would need two nonces. */
  lemma MinedOnce(txs: seq<Mined>, p: nat, q: nat)
    requires InNonceOrder(txs) && p < q < |txs|
    ensures txs[p].raw != txs[q].raw
  {
    CountGrows(txs[..q], p, txs[p].raw.account);
    assert txs[..q][..p] == txs[..p];
  }

  /** A nonce below the count is spent in what is already there, so nothing later can spend it. */
  lemma {:induction false} LaterNoncesAreHigher(shorter: seq<Mined>, longer: seq<Mined>, p: nat)
    requires InNonceOrder(longer) && shorter <= longer && |shorter| <= p < |longer|
    ensures CountIn(shorter, longer[p].raw.account) <= longer[p].raw.nonce
  {
    CountGrows(longer[..p], |shorter|, longer[p].raw.account);
    assert longer[..p][..|shorter|] == shorter;
  }

  lemma NeverBothOutcomes(txs: seq<Mined>, raw: Raw, p: nat, q: nat)
    requires InNonceOrder(txs) && p < |txs| && q < |txs|
    ensures !(txs[p] == Mined(raw, true) && txs[q] == Mined(raw, false))
  {
    if p < q {
      MinedOnce(txs, p, q);
    } else if q < p {
      MinedOnce(txs, q, p);
    }
  }

  lemma OneOutcome(blocks: Blocks, raw: Raw, succeeded: bool)
    requires Valid(blocks) && IsMined(blocks, raw, succeeded)
    ensures !IsMined(blocks, raw, !succeeded)
  {
    var txs := Txs(blocks);
    var p :| 0 <= p < |txs| && txs[p] == Mined(raw, succeeded);
    forall q | 0 <= q < |txs| ensures txs[q] != Mined(raw, !succeeded) {
      NeverBothOutcomes(txs, raw, if succeeded then p else q, if succeeded then q else p);
    }
  }

  /** What has been mined under a permanent prefix keeps its outcome in every chain above it. */
  lemma AnOutcomeIsPermanent(settled: Blocks, later: Blocks, raw: Raw, succeeded: bool)
    requires Valid(later) && settled <= later && IsMined(settled, raw, succeeded)
    ensures IsMined(later, raw, succeeded) && !IsMined(later, raw, !succeeded)
  {
    TxsOfAPrefix(settled, later);
    assert IsMined(later, raw, succeeded);
    OneOutcome(later, raw, succeeded);
  }

  /** Once another transaction has the nonce under a permanent prefix, the payload is never mined. */
  lemma ATakenNonceIsPermanent(settled: Blocks, later: Blocks, raw: Raw)
    requires Valid(later) && settled <= later
    requires raw.nonce < Count(settled, raw.account) && !Holds(settled, raw)
    ensures !Holds(later, raw)
  {
    TxsOfAPrefix(settled, later);
    forall p | 0 <= p < |Txs(later)| ensures Txs(later)[p].raw != raw {
      if p < |Txs(settled)| {
        assert Txs(later)[p] == Txs(settled)[p];
      } else {
        LaterNoncesAreHigher(Txs(settled), Txs(later), p);
      }
    }
  }

  lemma {:induction false} ABlockIsPartOfTheChain(blocks: Blocks, n: nat, mined: Mined)
    requires n < |blocks| && mined in blocks[n].txs
    ensures mined in Txs(blocks)
    decreases |blocks|
  {
    if n < |blocks| - 1 {
      ABlockIsPartOfTheChain(blocks[..|blocks| - 1], n, mined);
    }
  }

  // ---------------------------------------------------------------------------------------
  // What a node answers
  // ---------------------------------------------------------------------------------------

  datatype BlockRef = BlockRef(number: nat, hash: Block)

  /** One node at one moment: its chain, the number of its safe head if it can report one, what it holds unmined, and the pending count it gives. */
  datatype View = View(chainId: nat, blocks: Blocks, safe: Option<nat>, pool: set<Raw>, pendingCount: map<Account, nat>)

  datatype Receipt = Receipt(at: BlockRef, succeeded: bool)

  function ReceiptIn(txs: seq<Mined>, raw: Raw): (r: Option<bool>)
    ensures r.Some? ==> Mined(raw, r.value) in txs
    ensures r.None? ==> forall p :: 0 <= p < |txs| ==> txs[p].raw != raw
  {
    if txs == [] then None
    else if txs[|txs| - 1].raw == raw then Some(txs[|txs| - 1].succeeded)
    else ReceiptIn(txs[..|txs| - 1], raw)
  }

  /** `eth_getTransactionReceipt`. */
  function ReceiptOf(blocks: Blocks, raw: Raw): (r: Option<Receipt>)
    ensures r.Some? ==>
      && r.value.at.number < |blocks| && blocks[r.value.at.number] == r.value.at.hash
      && Mined(raw, r.value.succeeded) in r.value.at.hash.txs
    ensures r.None? <==> !Holds(blocks, raw)
  {
    if blocks == [] then None
    else
      var last := blocks[|blocks| - 1];
      var found := ReceiptIn(last.txs, raw);
      var earlier := blocks[..|blocks| - 1];
      assert found.Some? ==> Mined(raw, found.value) in Txs(blocks);
      assert forall p :: 0 <= p < |Txs(earlier)| ==> Txs(blocks)[p] == Txs(earlier)[p];
      if found.Some? then Some(Receipt(BlockRef(|blocks| - 1, last), found.value))
      else ReceiptOf(earlier, raw)
  }

  function Latest(v: View, account: Account): nat {
    Count(v.blocks, account)
  }

  function PendingCount(v: View, account: Account): nat {
    if account in v.pendingCount then v.pendingCount[account] else Latest(v, account)
  }

  /** What the node calls safe. */
  function SafeBlocks(v: View): Blocks {
    if v.safe.None? then [] else if v.safe.value < |v.blocks| then v.blocks[..v.safe.value + 1] else v.blocks
  }

  /** A block of a node's chain is safe exactly when it is at or below the safe head the node reports; a node that reports none has none. */
  lemma SafeIff(v: View, n: nat)
    ensures SafeBlocks(v) <= v.blocks
    ensures n < |SafeBlocks(v)| <==> n < |v.blocks| && v.safe.Some? && n <= v.safe.value
  {
  }

  /** A node on a valid chain whose safe blocks are permanent. */
  ghost predicate Faithful(v: View, permanent: Blocks) {
    Valid(v.blocks) && SafeBlocks(v) <= permanent
  }
}
