/** One worker, one run at a time, first in first out: `Queue` of wrasse/executor.py. */
module WorkQueue {
  import opened Constants

  type RunId = nat

  type SessionId = nat

  datatype RunKind = Settlement | Refund | Reclaim

  datatype RunStatus = Queued | Running | Succeeded | Failed | Refused

  datatype Run = Run(session: SessionId, kind: RunKind, status: RunStatus)

  predicate Unfinished(run: Run) {
    run.status.Queued? || run.status.Running?
  }

  datatype State = State(
    pending: seq<RunId>,
    runs: map<RunId, Run>,
    order: seq<RunId>,
    active: Option<RunId>,
    closed: bool,
    history: nat)

  /** `_trim`: forget the oldest finished runs, stopping at one that is not. */
  function Trimmed(q: State): State
    decreases |q.order|
  {
    if |q.order| <= q.history then q
    else
      var oldest := q.order[0];
      if oldest in q.runs && Unfinished(q.runs[oldest]) then q
      else Trimmed(q.(order := q.order[1..], runs := Forgetting(q.runs, oldest)))
  }

  function Forgetting(runs: map<RunId, Run>, id: RunId): map<RunId, Run> {
    map r | r in runs && r != id :: runs[r]
  }

  function Submitted(q: State, id: RunId, session: SessionId, kind: RunKind): State {
    Trimmed(q.(
      runs := q.runs[id := Run(session, kind, Queued)],
      order := q.order + [id],
      pending := q.pending + [id]))
  }

  /** The worker takes the next run. */
  function Taken(q: State): State {
    if q.pending == [] || q.active.Some? then q
    else q.(pending := q.pending[1..], active := Some(q.pending[0]))
  }

  function Marked(q: State, id: RunId, status: RunStatus): State {
    if id in q.runs then q.(runs := q.runs[id := q.runs[id].(status := status)]) else q
  }

  /** The run the worker holds begins. */
  function Begun(q: State): State {
    if q.active.Some? && q.active.value in q.runs && q.runs[q.active.value].status.Queued?
    then Marked(q, q.active.value, Running) else q
  }

  /** The run the worker holds ends; a reclaim that did not succeed closes the queue to settlements. */
  function Over(q: State, status: RunStatus): State {
    if q.active.Some? && q.active.value in q.runs && Unfinished(q.runs[q.active.value])
    then Marked(q, q.active.value, status).(closed := q.closed || (q.runs[q.active.value].kind.Reclaim? && !status.Succeeded?))
    else q
  }

  /** The worker lets go of a run that has ended. */
  function Dropped(q: State): State {
    if q.active.Some? && (q.active.value in q.runs ==> !Unfinished(q.runs[q.active.value])) then q.(active := None) else q
  }

  // ---------------------------------------------------------------------------------------
  // What every queue keeps
  // ---------------------------------------------------------------------------------------

  ghost predicate Distinct(ids: seq<RunId>) {
    forall i, j :: 0 <= i < j < |ids| ==> ids[i] != ids[j]
  }

  /** Every waiting id resolves to a run, every unfinished run is waiting or held by the worker, and no run is both. */
  ghost predicate Inv(q: State) {
    && Distinct(q.pending)
    && (forall i :: 0 <= i < |q.pending| ==> q.pending[i] in q.runs && q.runs[q.pending[i]].status.Queued?)
    && (forall i :: 0 <= i < |q.pending| ==> q.active != Some(q.pending[i]))
    && (forall id :: id in q.runs && Unfinished(q.runs[id]) ==> id in q.pending || q.active == Some(id))
  }

  /** Trimming loses no unfinished run and moves nothing else. */
  lemma {:induction false} TrimForgetsOnlyFinished(q: State)
    ensures var after := Trimmed(q);
      && after.pending == q.pending && after.active == q.active && after.closed == q.closed
      && after.history == q.history
      && (forall id :: id in after.runs ==> id in q.runs && after.runs[id] == q.runs[id])
      && (forall id :: id in q.runs && Unfinished(q.runs[id]) ==> id in after.runs)
    decreases |q.order|
  {
    if |q.order| > q.history {
      var oldest := q.order[0];
      if !(oldest in q.runs && Unfinished(q.runs[oldest])) {
        TrimForgetsOnlyFinished(q.(order := q.order[1..], runs := Forgetting(q.runs, oldest)));
      }
    }
  }

  /**
   * After a trim the queue remembers no more than its history, or the oldest it remembers is
   * unfinished. It forgets only what is past its history, and exactly the runs it drops from the order.
   */
  lemma {:induction false} TrimGoesAsFarAsItMay(q: State)
    ensures var after := Trimmed(q);
      && |after.order| <= |q.order| && after.order == q.order[|q.order| - |after.order|..]
      && (|after.order| <= q.history || (after.order[0] in after.runs && Unfinished(after.runs[after.order[0]])))
      && (|q.order| <= q.history ==> after == q)
      && (|q.order| >= q.history ==> |after.order| >= q.history)
      && (forall id :: id in after.runs <==> id in q.runs && id !in q.order[..|q.order| - |after.order|])
    decreases |q.order|
  {
    if |q.order| > q.history {
      var oldest := q.order[0];
      if !(oldest in q.runs && Unfinished(q.runs[oldest])) {
        var shorter := q.(order := q.order[1..], runs := Forgetting(q.runs, oldest));
        TrimGoesAsFarAsItMay(shorter);
        var gone := |q.order| - |Trimmed(q).order|;
        assert q.order[..gone] == [oldest] + shorter.order[..gone - 1];
      }
    }
  }

  lemma SubmitKeepsInv(q: State, id: RunId, session: SessionId, kind: RunKind)
    requires Inv(q) && id !in q.runs && q.active != Some(id)
    ensures Inv(Submitted(q, id, session, kind))
    ensures var after := Submitted(q, id, session, kind);
      && after.pending == q.pending + [id] && after.active == q.active
      && id in after.runs && after.runs[id] == Run(session, kind, Queued)
      && (forall r :: r in after.runs && r != id ==> r in q.runs && after.runs[r] == q.runs[r])
      && (forall r :: r in q.runs && Unfinished(q.runs[r]) ==> r in after.runs)
  {
    var queued := q.(runs := q.runs[id := Run(session, kind, Queued)], order := q.order + [id], pending := q.pending + [id]);
    TrimForgetsOnlyFinished(queued);
    var after := Trimmed(queued);
    assert after.pending[|q.pending|] == id && id in after.pending;
    forall r | r in after.runs && Unfinished(after.runs[r]) ensures r in after.pending || after.active == Some(r) {
      if r != id && r in q.pending {
        var i :| 0 <= i < |q.pending| && q.pending[i] == r;
        assert after.pending[i] == r;
      }
    }
  }

  lemma TakeKeepsInv(q: State)
    requires Inv(q)
    ensures Inv(Taken(q))
  {
  }

  lemma WorkKeepsInv(q: State, status: RunStatus)
    requires Inv(q)
    ensures Inv(Begun(q)) && Inv(Dropped(q))
    ensures !status.Queued? && !status.Running? ==> Inv(Over(q, status))
  {
  }

  // ---------------------------------------------------------------------------------------
  // The queue object
  // ---------------------------------------------------------------------------------------

  class Queue {
    var state: State

    constructor (history: nat)
      ensures state == State([], map[], [], None, false, history) && Inv(state)
    {
      state := State([], map[], [], None, false, history);
    }

    method Trim()
      modifies this
      ensures state == Trimmed(old(state))
    {
      ghost var before := state;
      while |state.order| > state.history
        invariant Trimmed(state) == Trimmed(before)
        decreases |state.order|
      {
        var oldest := state.order[0];
        if oldest in state.runs && Unfinished(state.runs[oldest]) {
          return;
        }
        state := state.(order := state.order[1..], runs := Forgetting(state.runs, oldest));
      }
    }

    method Submit(id: RunId, session: SessionId, kind: RunKind)
      modifies this
      ensures state == Submitted(old(state), id, session, kind)
    {
      state := state.(
        runs := state.runs[id := Run(session, kind, Queued)],
        order := state.order + [id],
        pending := state.pending + [id]);
      Trim();
    }

    method Get(id: RunId) returns (run: Option<Run>)
      ensures run == if id in state.runs then Some(state.runs[id]) else None
    {
      return if id in state.runs then Some(state.runs[id]) else None;
    }

    /** `position`: how many runs are in front, or nothing once it is no longer waiting. */
    method Position(id: RunId) returns (ahead: Option<nat>)
      ensures ahead.Some? <==> id in state.pending
      ensures ahead.Some? ==> ahead.value < |state.pending| && state.pending[ahead.value] == id && id !in state.pending[..ahead.value]
    {
      var i := 0;
      while i < |state.pending|
        invariant i <= |state.pending| && id !in state.pending[..i]
      {
        if state.pending[i] == id {
          return Some(i);
        }
        i := i + 1;
      }
      return None;
    }

    /** `busy_with`. */
    method BusyWith(session: SessionId) returns (busy: bool)
      ensures busy <==> Busy(state, session)
    {
      var rest := state.runs.Keys;
      while rest != {}
        invariant rest <= state.runs.Keys
        invariant forall id :: id in state.runs && id !in rest ==> state.runs[id].session != session || !Unfinished(state.runs[id])
        decreases rest
      {
        var id :| id in rest;
        if state.runs[id].session == session && Unfinished(state.runs[id]) {
          return true;
        }
        rest := rest - {id};
      }
      return false;
    }

    /** One turn of `_work`: the next run, executed to whatever end `ends` says, unless the queue is closed to it. */
    method Work(ends: RunStatus)
      requires state.active.None?
      modifies this
      ensures state == Worked(old(state), ends)
    {
      if state.pending == [] {
        return;
      }
      state := Taken(state);
      var id := state.active.value;
      if state.closed && id in state.runs && state.runs[id].kind.Settlement? {
        state := Over(state, Failed);
      } else {
        state := Begun(state);
        state := Over(state, ends);
      }
      state := Dropped(state);
    }
  }

  /** One whole turn of the worker. */
  function Worked(q: State, ends: RunStatus): State {
    if q.pending == [] then q
    else
      var taken := Taken(q);
      var id := q.pending[0];
      if q.closed && id in q.runs && q.runs[id].kind.Settlement? then Dropped(Over(taken, Failed))
      else Dropped(Over(Begun(taken), ends))
  }

  lemma EndKeepsInv(q: State, status: RunStatus)
    requires Inv(q) && !status.Queued? && !status.Running?
    ensures Inv(Dropped(Over(q, status)))
  {
  }

  lemma WorkedKeepsInv(q: State, ends: RunStatus)
    requires Inv(q) && q.active.None? && !ends.Queued? && !ends.Running?
    ensures Inv(Worked(q, ends))
  {
    TakeKeepsInv(q);
    WorkKeepsInv(Taken(q), ends);
    EndKeepsInv(Taken(q), Failed);
    EndKeepsInv(Begun(Taken(q)), ends);
  }

  /** A turn runs the run at the head and no other, to its end; settlements only while the queue is open. */
  lemma AWholeTurn(q: State, ends: RunStatus)
    requires Inv(q) && q.active.None? && q.pending != [] && !ends.Queued? && !ends.Running?
    ensures var after := Worked(q, ends); var id := q.pending[0]; var run := q.runs[id];
      && after.pending == q.pending[1..] && after.active.None?
      && after.runs == q.runs[id := run.(status := if q.closed && run.kind.Settlement? then Failed else ends)]
      && after.closed == (q.closed || (run.kind.Reclaim? && !ends.Succeeded?))
  {
    var id := q.pending[0];
    assert id in q.runs && q.runs[id].status.Queued?;
  }

  /** While it runs, the run at the head is the one the worker holds and is marked running, and nothing else has moved. */
  lemma WhileItRuns(q: State)
    requires Inv(q) && q.active.None? && q.pending != []
    ensures var id := q.pending[0];
      Begun(Taken(q)) == q.(
        pending := q.pending[1..], active := Some(id), runs := q.runs[id := q.runs[id].(status := Running)])
  {
  }

  /** The session has a run that has not finished. */
  ghost predicate Busy(q: State, session: SessionId) {
    exists id :: id in q.runs && q.runs[id].session == session && Unfinished(q.runs[id])
  }
}
