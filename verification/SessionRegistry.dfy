/** A private pair of memories per visitor: who may settle, who may refund, and who is forgotten. wrasse/sessions.py. */
module SessionRegistry {
  import opened Constants
  import opened WorkQueue

  const RUNS_PER_SESSION: nat := 5

  datatype SessionState = SessionState(runs: nat, finishing: bool, refunded: bool, refundRun: Option<RunId>)

  const NEW_SESSION := SessionState(0, false, false, None)

  datatype Refusal = AllowanceSpent | AlreadyFinished | NotPublished

  // ---------------------------------------------------------------------------------------
  // What one session goes through
  // ---------------------------------------------------------------------------------------

  /** `_check`: the allowance first, then whether the session has been finished. */
  function Check(s: SessionState): Option<Refusal> {
    if s.runs >= RUNS_PER_SESSION then Some(AllowanceSpent)
    else if s.finishing || s.refunded then Some(AlreadyFinished)
    else None
  }

  /** `begin_finishing`. */
  function Claimed(s: SessionState): SessionState {
    if s.finishing || s.refunded then s else s.(finishing := true)
  }

  /** `settle_refund`: nothing unless the session still names this refund. */
  function SettledRefund(s: SessionState, run: RunId, succeeded: bool): SessionState {
    if s.refundRun != Some(run) then s
    else if succeeded then s.(refunded := true, finishing := false)
    else s.(finishing := false, refundRun := None)
  }

  class Session {
    const id: SessionId
    var state: SessionState

    constructor (id: SessionId)
      ensures this.id == id && state == NEW_SESSION
    {
      this.id := id;
      state := NEW_SESSION;
    }
  }

  // ---------------------------------------------------------------------------------------
  // Eviction
  // ---------------------------------------------------------------------------------------

  function BusyOnes(order: seq<SessionId>, busy: SessionId -> bool): seq<SessionId> {
    if order == [] then []
    else (if busy(order[0]) then [order[0]] else []) + BusyOnes(order[1..], busy)
  }

  ghost predicate NoRepeats(order: seq<SessionId>) {
    forall i, j :: 0 <= i < j < |order| ==> order[i] != order[j]
  }

  /** `_evict`: of the first `n`, exactly the busy ones stay, ahead of everybody else in their old order. */
  ghost predicate EvictedFirst(order: seq<SessionId>, kept: seq<SessionId>, n: nat, limit: nat, busy: SessionId -> bool) {
    && n <= |order|
    && kept == BusyOnes(order[..n], busy) + order[n..]
    && (n == |order| || |kept| <= limit)
    && (forall m :: 0 <= m < n ==> |BusyOnes(order[..m], busy)| + |order| - m > limit)
  }

  lemma {:induction false} BusyOnesGrow(order: seq<SessionId>, n: nat, busy: SessionId -> bool)
    requires n < |order|
    ensures BusyOnes(order[..n + 1], busy) == BusyOnes(order[..n], busy) + (if busy(order[n]) then [order[n]] else [])
  {
    if n > 0 {
      BusyOnesGrow(order[1..], n - 1, busy);
      assert order[..n + 1][1..] == order[1..][..n];
      assert order[..n][1..] == order[1..][..n - 1];
    }
  }

  lemma {:induction false} BusyOnesAreBusy(order: seq<SessionId>, busy: SessionId -> bool)
    ensures forall id :: id in BusyOnes(order, busy) <==> id in order && busy(id)
    ensures |BusyOnes(order, busy)| <= |order|
    ensures |BusyOnes(order, busy)| == |order| ==> BusyOnes(order, busy) == order
  {
    if order != [] {
      BusyOnesAreBusy(order[1..], busy);
      assert order == [order[0]] + order[1..];
    }
  }

  /**
   * After an eviction the sessions held are within the limit or every one of them is busy; none
   * that was busy has gone; and unless nothing went, the limit is full, so no
   * session was forgotten that could have been kept.
   */
  lemma EvictionIsFair(order: seq<SessionId>, kept: seq<SessionId>, n: nat, limit: nat, busy: SessionId -> bool)
    requires EvictedFirst(order, kept, n, limit, busy)
    ensures |kept| <= limit || forall id :: id in kept ==> busy(id)
    ensures forall id :: id in order && busy(id) ==> id in kept
    ensures forall id :: id in kept ==> id in order
    ensures kept != order ==> limit <= |kept| < |order|
  {
    BusyOnesAreBusy(order[..n], busy);
    assert order == order[..n] + order[n..];
    if n > 0 {
      BusyOnesGrow(order, n - 1, busy);
    }
    assert |BusyOnes(order[..n], busy)| == n ==> kept == order;
  }

  /** A session that has just been added is forgotten by its own creation exactly when the busy ones already fill the limit. */
  lemma {:induction false} ANewSessionSurvivesIff(order: seq<SessionId>, newest: SessionId, kept: seq<SessionId>, n: nat, limit: nat, busy: SessionId -> bool)
    requires newest !in order && !busy(newest) && EvictedFirst(order + [newest], kept, n, limit, busy)
    ensures newest in kept <==> |BusyOnes(order, busy)| < limit
  {
    var longer := order + [newest];
    BusyOnesAreBusy(longer[..n], busy);
    assert longer[..|order|] == order;
    BusyOnesGrow(longer, |order|, busy);
    if n <= |order| {
      assert longer[n..][|order| - n] == newest;
      BusyOnesOfAPrefix(longer, n, |order|, busy);
      assert |kept| == |BusyOnes(longer[..n], busy)| + |longer| - n;
    } else {
      assert longer[..n] == longer && longer[n..] == [];
      assert |BusyOnes(longer[..|order|], busy)| + |longer| - |order| > limit;
    }
  }

  lemma {:induction false} BusyOnesOfAPrefix(order: seq<SessionId>, n: nat, m: nat, busy: SessionId -> bool)
    requires n <= m <= |order|
    ensures |BusyOnes(order[..m], busy)| <= |BusyOnes(order[..n], busy)| + m - n
    decreases m - n
  {
    if n < m {
      BusyOnesOfAPrefix(order, n, m - 1, busy);
      BusyOnesGrow(order, m - 1, busy);
    }
  }

  // ---------------------------------------------------------------------------------------
  // The registry
  // ---------------------------------------------------------------------------------------

  class Sessions {
    const limit: nat
    /** Creations whose databases are being copied outside the lock. */
    var reserved: nat
    var sessions: map<SessionId, Session>
    var order: seq<SessionId>

    ghost predicate Valid()
      reads this
    {
      NoRepeats(order) && forall id :: id in sessions <==> id in order
    }

    constructor (limit: nat)
      ensures Valid() && this.limit == limit && reserved == 0 && order == []
    {
      this.limit := limit;
      reserved, sessions, order := 0, map[], [];
    }

    /** The first half of `create`: a place, unless everything held is busy and there is none. */
    method Reserve(busy: SessionId -> bool) returns (admitted: bool)
      modifies this
      ensures !admitted <==> old(|order| + reserved) >= limit && forall id :: id in old(order) ==> busy(id)
      ensures order == old(order) && sessions == old(sessions)
      ensures reserved == old(reserved) + if admitted then 1 else 0
    {
      var full := |order| + reserved >= limit;
      var i := 0;
      while i < |order| && full
        invariant i <= |order|
        invariant full <==> |order| + reserved >= limit && forall j :: 0 <= j < i ==> busy(order[j])
      {
        full := busy(order[i]);
        i := i + 1;
      }
      if full {
        return false;
      }
      reserved := reserved + 1;
      return true;
    }

    /** The copy failed: the reservation goes. */
    method Abandon()
      requires reserved > 0
      modifies this
      ensures reserved == old(reserved) - 1 && order == old(order) && sessions == old(sessions)
    {
      reserved := reserved - 1;
    }

    /** The second half of `create`: the session is added, and the oldest idle ones make room. */
    method Land(session: Session, busy: SessionId -> bool) returns (ghost n: nat)
      requires Valid() && reserved > 0 && session.id !in order
      modifies this
      ensures Valid() && reserved == old(reserved) - 1
      ensures EvictedFirst(old(order) + [session.id], order, n, limit, busy)
      ensures forall id :: id in sessions && id != session.id ==> id in old(sessions) && sessions[id] == old(sessions)[id]
      ensures session.id in sessions ==> sessions[session.id] == session
    {
      reserved := reserved - 1;
      sessions := sessions[session.id := session];
      order := order + [session.id];
      n := Evict(busy);
    }

    /** `_evict`. */
    method Evict(busy: SessionId -> bool) returns (ghost n: nat)
      requires Valid()
      modifies this
      ensures Valid() && reserved == old(reserved)
      ensures EvictedFirst(old(order), order, n, limit, busy)
      ensures forall id :: id in sessions ==> id in old(sessions) && sessions[id] == old(sessions)[id]
    {
      ghost var before, held := order, sessions;
      var keep: seq<SessionId> := [];
      var rest := order;
      n := 0;
      NothingEvictedYet(before, sessions.Keys, limit, busy);
      while rest != [] && |keep| + |rest| > limit
        invariant Evicting(before, keep, rest, sessions.Keys, n, limit, busy)
        invariant reserved == old(reserved)
        invariant sessions.Keys <= held.Keys && forall id :: id in sessions ==> sessions[id] == held[id]
        decreases |rest|
      {
        var oldest := rest[0];
        EvictingStep(before, keep, rest, sessions.Keys, n, limit, busy);
        if busy(oldest) {
          keep := keep + [oldest];
        } else {
          sessions := sessions - {oldest};
        }
        rest := rest[1..];
        n := n + 1;
      }
      EvictedEnough(before, keep, rest, sessions.Keys, n, limit, busy);
      order := keep + rest;
    }

    /** `admit`: charge and publish as one transition, or charge nothing. */
    method Admit(session: Session, queue: Queue, run: RunId, publishes: bool) returns (refused: Option<Refusal>)
      modifies session, queue
      ensures refused == Some(AllowanceSpent) <==> old(session.state.runs) >= 5
      ensures refused == Some(AlreadyFinished) <==>
        old(session.state.runs) < 5 && (old(session.state.finishing) || old(session.state.refunded))
      ensures refused == Some(NotPublished) <==>
        old(session.state.runs) < 5 && !old(session.state.finishing) && !old(session.state.refunded) && !publishes
      ensures refused.Some? ==> session.state == old(session.state) && queue.state == old(queue.state)
      ensures refused.None? ==>
        && session.state == old(session.state).(runs := old(session.state.runs) + 1)
        && queue.state == Submitted(old(queue.state), run, session.id, Settlement)
    {
      refused := Check(session.state);
      if refused.Some? {
        return;
      }
      session.state := session.state.(runs := session.state.runs + 1);
      if !publishes {
        session.state := session.state.(runs := session.state.runs - 1);
        return Some(NotPublished);
      }
      queue.Submit(run, session.id, Settlement);
    }

    /** `begin_finishing`. */
    method BeginFinishing(session: Session) returns (claimed: bool)
      modifies session
      ensures session.state == Claimed(old(session.state))
      ensures claimed <==> !old(session.state.finishing) && !old(session.state.refunded)
      ensures session.state == if claimed then old(session.state).(finishing := true) else old(session.state)
    {
      if session.state.finishing || session.state.refunded {
        return false;
      }
      session.state := session.state.(finishing := true);
      return true;
    }

    /** `settle_refund`. */
    method SettleRefund(session: Session, run: RunId, succeeded: bool) returns (current: bool)
      modifies session
      ensures session.state == SettledRefund(old(session.state), run, succeeded)
      ensures current <==> old(session.state).refundRun == Some(run)
      ensures !current ==> session.state == old(session.state)
      ensures current ==> !session.state.finishing && session.state.runs == old(session.state.runs)
      ensures current && succeeded ==> session.state.refunded && session.state.refundRun == Some(run)
      ensures current && !succeeded ==> session.state.refundRun == None && session.state.refunded == old(session.state.refunded)
    {
      if session.state.refundRun != Some(run) {
        return false;
      }
      if succeeded {
        session.state := session.state.(refunded := true, finishing := false);
      } else {
        session.state := session.state.(finishing := false, refundRun := None);
      }
      return true;
    }
  }

  /** An eviction that has looked at the first `n`. */
  ghost predicate Evicting(
    before: seq<SessionId>, keep: seq<SessionId>, rest: seq<SessionId>, held: set<SessionId>, n: nat, limit: nat, busy: SessionId -> bool)
  {
    && n <= |before| && rest == before[n..] && keep == BusyOnes(before[..n], busy)
    && NoRepeats(keep + rest)
    && (forall m :: 0 <= m < n ==> |BusyOnes(before[..m], busy)| + |before| - m > limit)
    && (forall id :: id in held <==> id in keep || id in rest)
  }

  lemma NothingEvictedYet(order: seq<SessionId>, held: set<SessionId>, limit: nat, busy: SessionId -> bool)
    requires NoRepeats(order) && forall id :: id in held <==> id in order
    ensures Evicting(order, [], order, held, 0, limit, busy)
  {
  }

  lemma EvictingStep(
    before: seq<SessionId>, keep: seq<SessionId>, rest: seq<SessionId>, held: set<SessionId>, n: nat, limit: nat, busy: SessionId -> bool)
    requires Evicting(before, keep, rest, held, n, limit, busy) && rest != [] && |keep| + |rest| > limit
    ensures rest[0] in held
    ensures if busy(rest[0]) then Evicting(before, keep + [rest[0]], rest[1..], held, n + 1, limit, busy)
            else Evicting(before, keep, rest[1..], held - {rest[0]}, n + 1, limit, busy)
  {
    BusyOnesGrow(before, n, busy);
    assert keep + rest == keep + [rest[0]] + rest[1..];
    DroppingOne(keep, rest[0], rest[1..]);
  }

  lemma EvictedEnough(
    before: seq<SessionId>, keep: seq<SessionId>, rest: seq<SessionId>, held: set<SessionId>, n: nat, limit: nat, busy: SessionId -> bool)
    requires Evicting(before, keep, rest, held, n, limit, busy) && (rest == [] || |keep| + |rest| <= limit)
    ensures EvictedFirst(before, keep + rest, n, limit, busy)
    ensures NoRepeats(keep + rest) && forall id :: id in held <==> id in keep + rest
  {
  }

  lemma DroppingOne(before: seq<SessionId>, one: SessionId, after: seq<SessionId>)
    requires NoRepeats(before + [one] + after)
    ensures NoRepeats(before + after)
    ensures one !in before && one !in after
  {
    var whole := before + [one] + after;
    assert forall i :: 0 <= i < |before| ==> whole[i] == before[i];
    assert forall i :: 0 <= i < |after| ==> whole[|before| + 1 + i] == after[i];
    assert whole[|before|] == one;
  }
}
