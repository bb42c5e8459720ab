/**
 * Settlements and refunds of every session, over one queue: `execute`, `_refund` and
 * `_run_finished` of wrasse/service.py. Any number of threads refund, each stopping between any
 * two of its lines; what the registry or the queue does under its own lock is one step.
 */
module RefundProtocol {
  import opened Constants
  import opened WorkQueue
  import opened SessionRegistry

  type ThreadId = nat

  /** Where a thread is in `_refund`, and what it has read on the way. */
  datatype Phase =
    | Starting(session: SessionId)
    | Observed(session: SessionId, run: RunId)
    | Saw(session: SessionId, run: RunId, succeeded: bool)
    | Reconciled(session: SessionId)
    | Owning(session: SessionId)
    | Named(session: SessionId, run: RunId)

  /** `minted` and `ended` are what has ever been: the identifiers given out, and how each run that ended did. */
  datatype World = World(
    q: State,
    sessions: map<SessionId, SessionState>,
    threads: map<ThreadId, Phase>,
    minted: set<RunId>,
    ended: map<RunId, RunStatus>)

  function Of(w: World, s: SessionId): SessionState {
    if s in w.sessions then w.sessions[s] else NEW_SESSION
  }

  datatype Action =
    /** A settlement is admitted and queued as one transition. */
    | Admission(session: SessionId, run: RunId)
    /** A thread enters `_refund`. */
    | Enter(thread: ThreadId, session: SessionId)
    /** It reads which refund the session names. */
    | Observe(thread: ThreadId)
    /** It asks the queue what became of that run. */
    | Look(thread: ThreadId)
    /** It reports the outcome it saw. */
    | Report(thread: ThreadId)
    /** It tries to claim the session. */
    | Claim(thread: ThreadId)
    /** The owner names the refund it is about to submit. */
    | Name(thread: ThreadId, run: RunId)
    /** The owner queues it. */
    | Enqueue(thread: ThreadId)
    /** The owner failed before queueing, and undoes its claim. */
    | GiveUp(thread: ThreadId)
    /** The worker: takes a run, begins it, ends it, lets go of it. */
    | Take
    | Start
    | End(status: RunStatus)
    | Drop

  function At(w: World, t: ThreadId, phase: Phase): World {
    w.(threads := w.threads[t := phase])
  }

  function Gone(w: World, t: ThreadId): World {
    w.(threads := map k | k in w.threads && k != t :: w.threads[k])
  }

  function With(w: World, s: SessionId, state: SessionState): World {
    w.(sessions := w.sessions[s := state])
  }

  function Admitting(w: World, s: SessionId, r: RunId): World {
    if Check(Of(w, s)).Some? then w
    else With(w, s, Of(w, s).(runs := Of(w, s).runs + 1)).(q := Submitted(w.q, r, s, Settlement), minted := w.minted + {r})
  }

  function Observing(w: World, t: ThreadId, s: SessionId): World {
    if Of(w, s).refundRun.None? || Of(w, s).refunded then At(w, t, Reconciled(s))
    else At(w, t, Observed(s, Of(w, s).refundRun.value))
  }

  function Looking(w: World, t: ThreadId, s: SessionId, r: RunId): World {
    if r !in w.q.runs || Unfinished(w.q.runs[r]) then At(w, t, Reconciled(s))
    else At(w, t, Saw(s, r, w.q.runs[r].status.Succeeded?))
  }

  function Claiming(w: World, t: ThreadId, s: SessionId): World {
    if Of(w, s).finishing || Of(w, s).refunded then Gone(w, t)
    else At(With(w, s, Claimed(Of(w, s))), t, Owning(s))
  }

  function Ending(w: World, status: RunStatus): World {
    if w.q.active.Some? && w.q.active.value in w.q.runs && Unfinished(w.q.runs[w.q.active.value])
    then w.(q := Over(w.q, status), ended := w.ended[w.q.active.value := status]) else w
  }

  function Step(w: World, action: Action): World {
    match action
    case Admission(s, r) => Admitting(w, s, r)
    case Enter(t, s) => if t in w.threads then w else At(w, t, Starting(s))
    case Observe(t) =>
      if t in w.threads && w.threads[t].Starting? then Observing(w, t, w.threads[t].session) else w
    case Look(t) =>
      if t in w.threads && w.threads[t].Observed? then Looking(w, t, w.threads[t].session, w.threads[t].run) else w
    case Report(t) =>
      if t in w.threads && w.threads[t].Saw? then
        var p := w.threads[t];
        At(With(w, p.session, SettledRefund(Of(w, p.session), p.run, p.succeeded)), t, Reconciled(p.session))
      else w
    case Claim(t) =>
      if t in w.threads && w.threads[t].Reconciled? then Claiming(w, t, w.threads[t].session) else w
    case Name(t, r) =>
      if t in w.threads && w.threads[t].Owning? then
        var s := w.threads[t].session;
        At(With(w, s, Of(w, s).(refundRun := Some(r))), t, Named(s, r)).(minted := w.minted + {r})
      else w
    case Enqueue(t) =>
      if t in w.threads && w.threads[t].Named? then
        Gone(w, t).(q := Submitted(w.q, w.threads[t].run, w.threads[t].session, Refund))
      else w
    case GiveUp(t) =>
      if t in w.threads && w.threads[t].Named? then
        var p := w.threads[t];
        Gone(With(w, p.session, SettledRefund(Of(w, p.session), p.run, false)), t)
      else w
    case Take => w.(q := Taken(w.q))
    case Start => w.(q := Begun(w.q))
    case End(status) => Ending(w, status)
    case Drop => w.(q := Dropped(w.q))
  }

  /** Identifiers are new, and a run ends as something. */
  predicate Honest(w: World, action: Action) {
    match action
    case Admission(_, r) => r !in w.minted
    case Name(_, r) => r !in w.minted
    case End(status) => !status.Queued? && !status.Running?
    case _ => true
  }

  // ---------------------------------------------------------------------------------------
  // What every run keeps
  // ---------------------------------------------------------------------------------------

  /** The queue is in order, everything in it was minted, and what ended is not unfinished. */
  ghost predicate QueueInv(w: World) {
    && WorkQueue.Inv(w.q)
    && (forall r: RunId :: r in w.q.runs ==> r in w.minted)
    && (w.q.active.Some? ==> w.q.active.value in w.minted)
    && (forall r: RunId :: r in w.ended ==> r in w.minted && (r in w.q.runs ==> w.q.runs[r].status == w.ended[r]))
    && (forall r: RunId :: r in w.ended ==> !w.ended[r].Queued? && !w.ended[r].Running?)
    && (forall r: RunId :: r in w.q.runs && !Unfinished(w.q.runs[r]) ==> r in w.ended)
  }

  /** What a thread has read is so, and the owner of a claim is alone. */
  ghost predicate ThreadsInv(w: World) {
    && (forall t :: t in w.threads && w.threads[t].Saw? ==>
         w.threads[t].run in w.ended && (w.ended[w.threads[t].run].Succeeded? <==> w.threads[t].succeeded))
    && (forall t :: t in w.threads && w.threads[t].Owning? ==>
         var st := Of(w, w.threads[t].session); st.finishing && !st.refunded && st.refundRun.None?)
    && (forall t :: t in w.threads && w.threads[t].Named? ==>
         var st := Of(w, w.threads[t].session); var r := w.threads[t].run;
         && st.finishing && !st.refunded && st.refundRun == Some(r)
         && r in w.minted && r !in w.q.runs && r !in w.ended && w.q.active != Some(r))
    && (forall t, u :: t in w.threads && u in w.threads && t != u && Owns(w.threads[t]) && Owns(w.threads[u]) ==>
         w.threads[t].session != w.threads[u].session)
  }

  predicate Owns(p: Phase) {
    p.Owning? || p.Named?
  }

  predicate UnfinishedOf(q: State, s: SessionId, kind: RunKind, r: RunId) {
    r in q.runs && q.runs[r].session == s && q.runs[r].kind == kind && Unfinished(q.runs[r])
  }

  /** A session that names a refund has claimed it or is refunded, and a refunded one names a refund that succeeded. */
  ghost predicate SessionsInv(w: World) {
    && (forall s :: s in w.sessions && Of(w, s).refundRun.Some? ==> Of(w, s).finishing || Of(w, s).refunded)
    && (forall s :: s in w.sessions && Of(w, s).refundRun.Some? ==>
         var r := Of(w, s).refundRun.value;
         r in w.minted && (r in w.q.runs ==> w.q.runs[r].session == s && w.q.runs[r].kind.Refund?))
    && (forall s, x :: s in w.sessions && x in w.sessions && s != x && Of(w, s).refundRun.Some? ==>
         Of(w, s).refundRun != Of(w, x).refundRun)
    && (forall s :: s in w.sessions && Of(w, s).refunded ==>
         && !Of(w, s).finishing && Of(w, s).refundRun.Some?
         && Of(w, s).refundRun.value in w.ended && w.ended[Of(w, s).refundRun.value].Succeeded?)
  }

  /** One session's unfinished work: its one refund is the one it names, and no settlement of its own waits behind that. */
  ghost predicate WorkInv(w: World, s: SessionId) {
    && (forall r: RunId :: UnfinishedOf(w.q, s, Refund, r) ==>
         Of(w, s).finishing && !Of(w, s).refunded && Of(w, s).refundRun == Some(r))
    && (forall i, j :: 0 <= i <= j < |w.q.pending| && UnfinishedOf(w.q, s, Refund, w.q.pending[i]) ==>
         !UnfinishedOf(w.q, s, Settlement, w.q.pending[j]))
    && (w.q.active.Some? && UnfinishedOf(w.q, s, Refund, w.q.active.value) ==>
         forall r: RunId :: !UnfinishedOf(w.q, s, Settlement, r))
    && (Of(w, s).refundRun.Some? && Of(w, s).refundRun.value in w.ended ==>
         forall r: RunId :: !UnfinishedOf(w.q, s, Settlement, r))
  }

  ghost predicate Inv(w: World) {
    QueueInv(w) && ThreadsInv(w) && SessionsInv(w) && forall s: SessionId :: WorkInv(w, s)
  }

  // ---------------------------------------------------------------------------------------
  // Steps that touch only a thread
  // ---------------------------------------------------------------------------------------

  lemma ReadingKeepsInv(w: World, action: Action)
    requires Inv(w) && (action.Enter? || action.Observe? || action.Look?)
    ensures Inv(Step(w, action))
  {
    var after := Step(w, action);
    assert after.q == w.q && after.sessions == w.sessions && after.ended == w.ended && after.minted == w.minted;
    ReadingKeepsThreads(w, action);
    forall s: SessionId ensures WorkInv(after, s) {
      SameWork(w, after, s);
    }
  }

  lemma ReadingKeepsThreads(w: World, action: Action)
    requires QueueInv(w) && ThreadsInv(w) && (action.Enter? || action.Observe? || action.Look?)
    ensures ThreadsInv(Step(w, action))
  {
    match action
    case Enter(t, s) =>
      if t !in w.threads {
        MovingAThread(w, t, Starting(s));
      }
    case Observe(t) =>
      if t in w.threads && w.threads[t].Starting? {
        MovingAThread(w, t, Observing(w, t, w.threads[t].session).threads[t]);
      }
    case Look(t) =>
      if t in w.threads && w.threads[t].Observed? {
        MovingAThread(w, t, Looking(w, t, w.threads[t].session, w.threads[t].run).threads[t]);
      }
  }

  /** A thread that owns nothing moves to where it still owns nothing. */
  lemma MovingAThread(w: World, t: ThreadId, phase: Phase)
    requires ThreadsInv(w) && !Owns(phase) && (t in w.threads ==> !Owns(w.threads[t]))
    requires phase.Saw? ==> phase.run in w.ended && (w.ended[phase.run].Succeeded? <==> phase.succeeded)
    ensures ThreadsInv(At(w, t, phase))
  {
  }

  lemma SameWork(w: World, after: World, s: SessionId)
    requires WorkInv(w, s) && after.q == w.q && Of(after, s) == Of(w, s) && after.ended == w.ended
    ensures WorkInv(after, s)
  {
  }

  // ---------------------------------------------------------------------------------------
  // Steps that change a session
  // ---------------------------------------------------------------------------------------

  lemma ReportKeepsInv(w: World, t: ThreadId)
    requires Inv(w)
    ensures Inv(Step(w, Report(t)))
  {
    var after := Step(w, Report(t));
    if t in w.threads && w.threads[t].Saw? {
      var p := w.threads[t];
      forall s: SessionId ensures WorkInv(after, s) {
        if s == p.session {
          ReportKeepsWork(w, t);
        } else {
          SameWork(w, after, s);
        }
      }
      ReportKeepsThreads(w, t);
      ReportKeepsSessions(w, t);
    }
  }

  lemma ReportKeepsSessions(w: World, t: ThreadId)
    requires ThreadsInv(w) && SessionsInv(w) && t in w.threads && w.threads[t].Saw?
    ensures SessionsInv(Step(w, Report(t)))
  {
  }

  lemma ReportKeepsThreads(w: World, t: ThreadId)
    requires QueueInv(w) && ThreadsInv(w) && SessionsInv(w) && t in w.threads && w.threads[t].Saw?
    ensures ThreadsInv(Step(w, Report(t)))
  {
  }

  /** The refund reported on has ended, so no unfinished one loses its claim; and if it succeeded, the settlements were done before it. */
  lemma ReportKeepsWork(w: World, t: ThreadId)
    requires QueueInv(w) && ThreadsInv(w) && t in w.threads && w.threads[t].Saw?
    requires WorkInv(w, w.threads[t].session)
    ensures WorkInv(Step(w, Report(t)), w.threads[t].session)
  {
  }

  lemma ClaimKeepsInv(w: World, t: ThreadId)
    requires Inv(w)
    ensures Inv(Step(w, Claim(t)))
  {
    var after := Step(w, Claim(t));
    if t in w.threads && w.threads[t].Reconciled? {
      forall s: SessionId ensures WorkInv(after, s) {
        ClaimKeepsWork(w, t, s);
      }
      ClaimKeepsThreads(w, t);
      ClaimKeepsSessions(w, t);
    }
  }

  lemma ClaimKeepsThreads(w: World, t: ThreadId)
    requires ThreadsInv(w) && SessionsInv(w) && t in w.threads && w.threads[t].Reconciled?
    ensures ThreadsInv(Step(w, Claim(t)))
  {
    var s := w.threads[t].session;
    if !Of(w, s).finishing && !Of(w, s).refunded {
      assert forall u :: u in w.threads && Owns(w.threads[u]) ==> w.threads[u].session != s;
      assert Of(w, s).refundRun.None?;
    }
  }

  lemma ClaimKeepsSessions(w: World, t: ThreadId)
    requires SessionsInv(w) && t in w.threads && w.threads[t].Reconciled?
    ensures SessionsInv(Step(w, Claim(t)))
  {
  }

  lemma ClaimKeepsWork(w: World, t: ThreadId, s: SessionId)
    requires WorkInv(w, s) && t in w.threads && w.threads[t].Reconciled?
    ensures WorkInv(Step(w, Claim(t)), s)
  {
  }

  lemma NameKeepsInv(w: World, t: ThreadId, r: RunId)
    requires Inv(w) && r !in w.minted
    ensures Inv(Step(w, Name(t, r)))
  {
    var after := Step(w, Name(t, r));
    if t in w.threads && w.threads[t].Owning? {
      forall s: SessionId ensures WorkInv(after, s) {
        if s == w.threads[t].session {
          NameKeepsWork(w, t, r);
        } else {
          SameWork(w, after, s);
        }
      }
      NameKeepsThreads(w, t, r);
    }
  }

  lemma NameKeepsThreads(w: World, t: ThreadId, r: RunId)
    requires QueueInv(w) && ThreadsInv(w) && r !in w.minted && t in w.threads && w.threads[t].Owning?
    ensures ThreadsInv(Step(w, Name(t, r)))
  {
  }

  lemma NameKeepsWork(w: World, t: ThreadId, r: RunId)
    requires QueueInv(w) && ThreadsInv(w) && r !in w.minted && t in w.threads && w.threads[t].Owning?
    requires WorkInv(w, w.threads[t].session)
    ensures WorkInv(Step(w, Name(t, r)), w.threads[t].session)
  {
  }

  lemma GiveUpKeepsInv(w: World, t: ThreadId)
    requires Inv(w)
    ensures Inv(Step(w, GiveUp(t)))
  {
    var after := Step(w, GiveUp(t));
    if t in w.threads && w.threads[t].Named? {
      forall s: SessionId ensures WorkInv(after, s) {
        if s == w.threads[t].session {
          GiveUpKeepsWork(w, t);
        } else {
          SameWork(w, after, s);
        }
      }
      GiveUpKeepsThreads(w, t);
      GiveUpKeepsSessions(w, t);
    }
  }

  lemma GiveUpKeepsThreads(w: World, t: ThreadId)
    requires ThreadsInv(w) && t in w.threads && w.threads[t].Named?
    ensures ThreadsInv(Step(w, GiveUp(t)))
  {
  }

  lemma GiveUpKeepsSessions(w: World, t: ThreadId)
    requires SessionsInv(w) && t in w.threads && w.threads[t].Named? && !Of(w, w.threads[t].session).refunded
    ensures SessionsInv(Step(w, GiveUp(t)))
  {
  }

  lemma GiveUpKeepsWork(w: World, t: ThreadId)
    requires ThreadsInv(w) && t in w.threads && w.threads[t].Named? && WorkInv(w, w.threads[t].session)
    ensures WorkInv(Step(w, GiveUp(t)), w.threads[t].session)
  {
  }

  // ---------------------------------------------------------------------------------------
  // Steps that submit
  // ---------------------------------------------------------------------------------------

  /** What a submission does to anybody's unfinished work. */
  lemma SubmissionAddsOne(q: State, id: RunId, session: SessionId, kind: RunKind, s: SessionId)
    requires WorkQueue.Inv(q) && id !in q.runs && q.active != Some(id)
    ensures var after := Submitted(q, id, session, kind);
      && after.pending == q.pending + [id] && after.active == q.active
      && (forall k, r: RunId :: UnfinishedOf(after, s, k, r) <==> UnfinishedOf(q, s, k, r) || (r == id && s == session && k == kind))
  {
    SubmitKeepsInv(q, id, session, kind);
  }

  lemma SubmissionKeepsQueue(w: World, after: World, id: RunId, session: SessionId, kind: RunKind)
    requires QueueInv(w) && id !in w.q.runs && id !in w.ended && w.q.active != Some(id)
    requires after.q == Submitted(w.q, id, session, kind) && after.minted == w.minted + {id} && after.ended == w.ended
    ensures QueueInv(after)
  {
    SubmitKeepsInv(w.q, id, session, kind);
  }

  lemma AdmissionKeepsInv(w: World, s: SessionId, r: RunId)
    requires Inv(w) && r !in w.minted
    ensures Inv(Step(w, Admission(s, r)))
  {
    var after := Step(w, Admission(s, r));
    if Check(Of(w, s)).None? {
      SubmissionKeepsQueue(w, after, r, s, Settlement);
      SubmitKeepsInv(w.q, r, s, Settlement);
      forall x: SessionId ensures WorkInv(after, x) {
        AdmissionKeepsWork(w, s, r, x);
      }
      AdmissionKeepsThreads(w, s, r);
      AdmissionKeepsSessions(w, s, r);
    }
  }

  lemma AdmissionKeepsThreads(w: World, s: SessionId, r: RunId)
    requires QueueInv(w) && ThreadsInv(w) && r !in w.minted && Check(Of(w, s)).None?
    ensures ThreadsInv(Step(w, Admission(s, r)))
  {
    SubmitKeepsInv(w.q, r, s, Settlement);
  }

  lemma AdmissionKeepsSessions(w: World, s: SessionId, r: RunId)
    requires QueueInv(w) && SessionsInv(w) && r !in w.minted && Check(Of(w, s)).None?
    ensures SessionsInv(Step(w, Admission(s, r)))
  {
    SubmitKeepsInv(w.q, r, s, Settlement);
  }

  lemma AdmissionKeepsWork(w: World, s: SessionId, r: RunId, x: SessionId)
    requires QueueInv(w) && SessionsInv(w) && WorkInv(w, x) && r !in w.minted && Check(Of(w, s)).None?
    ensures WorkInv(Step(w, Admission(s, r)), x)
  {
    SubmissionAddsOne(w.q, r, s, Settlement, x);
  }

  lemma EnqueueKeepsInv(w: World, t: ThreadId)
    requires Inv(w)
    ensures Inv(Step(w, Enqueue(t)))
  {
    var after := Step(w, Enqueue(t));
    if t in w.threads && w.threads[t].Named? {
      var p := w.threads[t];
      SubmissionKeepsQueue(w, after, p.run, p.session, Refund);
      forall x: SessionId ensures WorkInv(after, x) {
        EnqueueKeepsWork(w, t, x);
      }
      EnqueueKeepsThreads(w, t);
    }
  }

  lemma EnqueueKeepsThreads(w: World, t: ThreadId)
    requires Inv(w) && t in w.threads && w.threads[t].Named?
    ensures ThreadsInv(Step(w, Enqueue(t))) && SessionsInv(Step(w, Enqueue(t)))
  {
    SubmitKeepsInv(w.q, w.threads[t].run, w.threads[t].session, Refund);
  }

  lemma EnqueueKeepsWork(w: World, t: ThreadId, x: SessionId)
    requires QueueInv(w) && ThreadsInv(w) && WorkInv(w, x) && t in w.threads && w.threads[t].Named?
    ensures WorkInv(Step(w, Enqueue(t)), x)
  {
    SubmissionAddsOne(w.q, w.threads[t].run, w.threads[t].session, Refund, x);
  }

  // ---------------------------------------------------------------------------------------
  // The worker's steps
  // ---------------------------------------------------------------------------------------

  lemma TakeKeepsInv(w: World)
    requires Inv(w)
    ensures Inv(Step(w, Take))
  {
    var after := Step(w, Take);
    WorkQueue.TakeKeepsInv(w.q);
    forall s: SessionId ensures WorkInv(after, s) {
      TakeKeepsWork(w, s);
    }
  }

  lemma TakeKeepsWork(w: World, s: SessionId)
    requires QueueInv(w) && WorkInv(w, s)
    ensures WorkInv(Step(w, Take), s)
  {
    var q, after := w.q, Taken(w.q);
    assert forall k, r: RunId :: UnfinishedOf(after, s, k, r) <==> UnfinishedOf(q, s, k, r);
    if q.pending != [] && q.active.None? && UnfinishedOf(q, s, Refund, q.pending[0]) {
      forall r: RunId ensures !UnfinishedOf(q, s, Settlement, r) {
        assert r in q.pending ==> exists j :: 0 <= j < |q.pending| && q.pending[j] == r;
      }
    }
  }

  lemma MarkingKeepsInv(w: World, action: Action)
    requires Inv(w) && (action.Start? || action.Drop?)
    ensures Inv(Step(w, action))
  {
    MarkingKeepsQueue(w, action);
    MarkingKeepsTables(w, action);
    forall s: SessionId ensures WorkInv(Step(w, action), s) {
      MarkingKeepsWork(w, action, s);
    }
  }

  lemma MarkingKeepsQueue(w: World, action: Action)
    requires QueueInv(w) && (action.Start? || action.Drop?)
    ensures QueueInv(Step(w, action))
  {
  }

  lemma MarkingKeepsTables(w: World, action: Action)
    requires ThreadsInv(w) && SessionsInv(w) && (action.Start? || action.Drop?)
    ensures ThreadsInv(Step(w, action)) && SessionsInv(Step(w, action))
  {
  }

  lemma MarkingKeepsWork(w: World, action: Action, s: SessionId)
    requires WorkInv(w, s) && (action.Start? || action.Drop?)
    ensures WorkInv(Step(w, action), s)
  {
    var after := Step(w, action);
    assert forall k, r: RunId :: UnfinishedOf(after.q, s, k, r) <==> UnfinishedOf(w.q, s, k, r);
  }

  lemma EndKeepsInv(w: World, status: RunStatus)
    requires Inv(w) && !status.Queued? && !status.Running?
    ensures Inv(Step(w, End(status)))
  {
    EndKeepsQueue(w, status);
    EndKeepsThreads(w, status);
    EndKeepsSessions(w, status);
    forall s: SessionId ensures WorkInv(Step(w, End(status)), s) {
      EndKeepsWork(w, status, s);
    }
  }

  lemma EndKeepsQueue(w: World, status: RunStatus)
    requires QueueInv(w) && !status.Queued? && !status.Running?
    ensures QueueInv(Step(w, End(status)))
  {
  }

  lemma EndKeepsThreads(w: World, status: RunStatus)
    requires QueueInv(w) && ThreadsInv(w) && !status.Queued? && !status.Running?
    ensures ThreadsInv(Step(w, End(status)))
  {
  }

  lemma EndKeepsSessions(w: World, status: RunStatus)
    requires QueueInv(w) && SessionsInv(w) && !status.Queued? && !status.Running?
    ensures SessionsInv(Step(w, End(status)))
  {
  }

  /** When the refund a session names ends, its settlements were already over: the worker held nothing else. */
  lemma EndKeepsWork(w: World, status: RunStatus, s: SessionId)
    requires QueueInv(w) && SessionsInv(w) && WorkInv(w, s) && !status.Queued? && !status.Running?
    ensures WorkInv(Step(w, End(status)), s)
  {
    var after := Step(w, End(status));
    assert forall k, r: RunId :: UnfinishedOf(after.q, s, k, r) ==> UnfinishedOf(w.q, s, k, r);
    if w.q.active.Some? && Of(w, s).refundRun == w.q.active && w.q.active.value in w.q.runs && Unfinished(w.q.runs[w.q.active.value]) {
      assert UnfinishedOf(w.q, s, Refund, w.q.active.value);
    }
  }

  lemma StepKeepsInv(w: World, action: Action)
    requires Inv(w) && Honest(w, action)
    ensures Inv(Step(w, action))
  {
    match action
    case Admission(s, r) => AdmissionKeepsInv(w, s, r);
    case Enter(_, _) => ReadingKeepsInv(w, action);
    case Observe(_) => ReadingKeepsInv(w, action);
    case Look(_) => ReadingKeepsInv(w, action);
    case Report(t) => ReportKeepsInv(w, t);
    case Claim(t) => ClaimKeepsInv(w, t);
    case Name(t, r) => NameKeepsInv(w, t, r);
    case Enqueue(t) => EnqueueKeepsInv(w, t);
    case GiveUp(t) => GiveUpKeepsInv(w, t);
    case Take => TakeKeepsInv(w);
    case Start => MarkingKeepsInv(w, action);
    case End(status) => EndKeepsInv(w, status);
    case Drop => MarkingKeepsInv(w, action);
  }

  // ---------------------------------------------------------------------------------------
  // Whole runs
  // ---------------------------------------------------------------------------------------

  function AtBoot(history: nat): World {
    World(State([], map[], [], None, false, history), map[], map[], {}, map[])
  }

  function Run(history: nat, actions: seq<Action>): World {
    if actions == [] then AtBoot(history)
    else Step(Run(history, actions[..|actions| - 1]), actions[|actions| - 1])
  }

  predicate HonestRun(history: nat, actions: seq<Action>) {
    actions == [] ||
    (HonestRun(history, actions[..|actions| - 1]) && Honest(Run(history, actions[..|actions| - 1]), actions[|actions| - 1]))
  }

  lemma {:induction false} EveryRunKeepsInv(history: nat, actions: seq<Action>)
    requires HonestRun(history, actions)
    ensures Inv(Run(history, actions))
  {
    if actions != [] {
      EveryRunKeepsInv(history, actions[..|actions| - 1]);
      StepKeepsInv(Run(history, actions[..|actions| - 1]), actions[|actions| - 1]);
    }
  }

  /** A session has at most one refund under way, and no settlement of its own behind it. */
  ghost predicate RefundComesLast(w: World, s: SessionId) {
    && (forall r, x: RunId :: UnfinishedOf(w.q, s, Refund, r) && UnfinishedOf(w.q, s, Refund, x) ==> r == x)
    && (forall i, j :: 0 <= i <= j < |w.q.pending| && UnfinishedOf(w.q, s, Refund, w.q.pending[i]) ==>
         !UnfinishedOf(w.q, s, Settlement, w.q.pending[j]))
    && (w.q.active.Some? && UnfinishedOf(w.q, s, Refund, w.q.active.value) ==>
         forall r: RunId :: !UnfinishedOf(w.q, s, Settlement, r))
  }

  /** Nothing of the session's is left to settle. */
  ghost predicate NothingToSettle(w: World, s: SessionId) {
    forall r: RunId :: !UnfinishedOf(w.q, s, Settlement, r)
  }

  /**
   * Over every interleaving of any number of threads with the worker: a session's refund comes
   * last, and once the session is refunded none of its settlements is queued or running.
   */
  lemma {:induction false} RefundSafety(history: nat, actions: seq<Action>, s: SessionId)
    requires HonestRun(history, actions)
    ensures RefundComesLast(Run(history, actions), s)
    ensures Of(Run(history, actions), s).refunded ==> NothingToSettle(Run(history, actions), s)
  {
    EveryRunKeepsInv(history, actions);
    InvGivesSafety(Run(history, actions), s);
  }

  lemma InvGivesSafety(w: World, s: SessionId)
    requires Inv(w)
    ensures RefundComesLast(w, s)
    ensures Of(w, s).refunded ==> NothingToSettle(w, s)
  {
    assert WorkInv(w, s);
  }

  /** Being refunded is for good, and so is having nothing left to settle. */
  lemma {:induction false} RefundedIsForever(history: nat, actions: seq<Action>, n: nat, s: SessionId)
    requires HonestRun(history, actions) && n <= |actions| && Of(Run(history, actions[..n]), s).refunded
    ensures Of(Run(history, actions), s).refunded && NothingToSettle(Run(history, actions), s)
  {
    if n == |actions| {
      assert actions[..n] == actions;
    } else {
      var shorter := actions[..|actions| - 1];
      assert shorter[..n] == actions[..n];
      RefundedIsForever(history, shorter, n, s);
      EveryRunKeepsInv(history, shorter);
      RefundedStays(Run(history, shorter), actions[|actions| - 1], s);
    }
    RefundSafety(history, actions, s);
  }

  lemma RefundedStays(w: World, action: Action, s: SessionId)
    requires Of(w, s).refunded
    ensures Of(Step(w, action), s).refunded
  {
  }

  /** A claim is never taken away while the refund it was made for is queued or running, however stale the report that tries. */
  lemma {:induction false} AClaimOutlivesItsRefund(history: nat, actions: seq<Action>, action: Action, s: SessionId)
    requires HonestRun(history, actions + [action])
    requires Of(Run(history, actions), s).finishing && !Of(Run(history, actions + [action]), s).finishing
    ensures forall r: RunId :: !UnfinishedOf(Run(history, actions).q, s, Refund, r)
    ensures forall r: RunId :: !UnfinishedOf(Run(history, actions + [action]).q, s, Refund, r)
  {
    assert (actions + [action])[..|actions|] == actions;
    EveryRunKeepsInv(history, actions);
    EveryRunKeepsInv(history, actions + [action]);
    var w := Run(history, actions);
    var after := Run(history, actions + [action]);
    assert WorkInv(after, s);
    OnlyReportsClear(w, action, s);
  }

  lemma OnlyReportsClear(w: World, action: Action, s: SessionId)
    requires Of(w, s).finishing && !Of(Step(w, action), s).finishing
    ensures Step(w, action).q == w.q
  {
  }

  // ---------------------------------------------------------------------------------------
  // Nobody's claim
  // ---------------------------------------------------------------------------------------

  /** Somebody answers for the session's claim: a thread that owns it, or a refund the queue has or has had to its end. */
  ghost predicate Answered(w: World, s: SessionId) {
    Of(w, s).finishing ==>
      || (exists t :: t in w.threads && Owns(w.threads[t]) && w.threads[t].session == s)
      || (Of(w, s).refundRun.Some? && (Of(w, s).refundRun.value in w.q.runs || Of(w, s).refundRun.value in w.ended))
  }

  lemma AdmissionKeepsAnswered(w: World, x: SessionId, r: RunId, s: SessionId)
    requires Inv(w) && r !in w.minted && Answered(w, s)
    ensures Answered(Step(w, Admission(x, r)), s)
  {
    if Check(Of(w, x)).None? {
      SubmitForgetsOnlyEnded(w, r, x, Settlement);
    }
  }

  lemma EnqueueKeepsAnswered(w: World, t: ThreadId, s: SessionId)
    requires Inv(w) && Answered(w, s)
    ensures Answered(Step(w, Enqueue(t)), s)
  {
    if t in w.threads && w.threads[t].Named? {
      SubmitForgetsOnlyEnded(w, w.threads[t].run, w.threads[t].session, Refund);
      var after := Step(w, Enqueue(t));
      if x :| x in w.threads && Owns(w.threads[x]) && w.threads[x].session == s && x != t {
        assert x in after.threads && after.threads[x] == w.threads[x];
      }
    }
  }

  lemma SubmitForgetsOnlyEnded(w: World, id: RunId, session: SessionId, kind: RunKind)
    requires QueueInv(w) && id !in w.q.runs && w.q.active != Some(id)
    ensures var after := Submitted(w.q, id, session, kind);
      id in after.runs && forall r: RunId :: r in w.q.runs ==> r in after.runs || r in w.ended
  {
    SubmitKeepsInv(w.q, id, session, kind);
  }

  lemma ClaimKeepsAnswered(w: World, t: ThreadId, s: SessionId)
    requires Answered(w, s)
    ensures Answered(Step(w, Claim(t)), s)
  {
    var after := Step(w, Claim(t));
    if x :| x in w.threads && Owns(w.threads[x]) && w.threads[x].session == s {
      assert x in after.threads && after.threads[x] == w.threads[x];
    } else if t in after.threads && Owns(after.threads[t]) && after.threads[t].session == s {
      assert Answered(after, s);
    }
  }

  lemma NameKeepsAnswered(w: World, t: ThreadId, r: RunId, s: SessionId)
    requires Inv(w) && Answered(w, s)
    ensures Answered(Step(w, Name(t, r)), s)
  {
    var after := Step(w, Name(t, r));
    if x :| x in w.threads && Owns(w.threads[x]) && w.threads[x].session == s {
      assert x in after.threads && Owns(after.threads[x]) && after.threads[x].session == s;
    }
  }

  lemma LettingGoKeepsAnswered(w: World, action: Action, s: SessionId)
    requires Inv(w) && Answered(w, s) && (action.GiveUp? || action.Report?)
    ensures Answered(Step(w, action), s)
  {
    var after := Step(w, action);
    if x :| x in w.threads && Owns(w.threads[x]) && w.threads[x].session == s && x != action.thread {
      assert x in after.threads && after.threads[x] == w.threads[x];
    }
  }

  lemma ReadingKeepsAnswered(w: World, action: Action, s: SessionId)
    requires Answered(w, s) && (action.Enter? || action.Observe? || action.Look?)
    ensures Answered(Step(w, action), s)
  {
    var after := Step(w, action);
    if x :| x in w.threads && Owns(w.threads[x]) && w.threads[x].session == s {
      assert x in after.threads && after.threads[x] == w.threads[x];
    }
  }

  lemma WorkKeepsAnswered(w: World, action: Action, s: SessionId)
    requires Answered(w, s) && (action.Take? || action.Start? || action.End? || action.Drop?)
    ensures Answered(Step(w, action), s)
  {
  }

  lemma StepKeepsAnswered(w: World, action: Action, s: SessionId)
    requires Inv(w) && Honest(w, action) && Answered(w, s)
    ensures Answered(Step(w, action), s)
  {
    match action
    case Admission(x, r) => AdmissionKeepsAnswered(w, x, r, s);
    case Enqueue(t) => EnqueueKeepsAnswered(w, t, s);
    case Claim(t) => ClaimKeepsAnswered(w, t, s);
    case Name(t, r) => NameKeepsAnswered(w, t, r, s);
    case GiveUp(_) => LettingGoKeepsAnswered(w, action, s);
    case Report(_) => LettingGoKeepsAnswered(w, action, s);
    case _ =>
      if action.Enter? || action.Observe? || action.Look? {
        ReadingKeepsAnswered(w, action, s);
      } else {
        WorkKeepsAnswered(w, action, s);
      }
  }

  /** No claim is ever left with nobody to answer for it, however threads, the worker and the trimming interleave. */
  lemma {:induction false} NoClaimIsOrphaned(history: nat, actions: seq<Action>, s: SessionId)
    requires HonestRun(history, actions)
    ensures Answered(Run(history, actions), s)
  {
    if actions != [] {
      var shorter, last := actions[..|actions| - 1], actions[|actions| - 1];
      NoClaimIsOrphaned(history, shorter, s);
      EveryRunKeepsInv(history, shorter);
      StepKeepsAnswered(Run(history, shorter), last, s);
    }
  }

  // ---------------------------------------------------------------------------------------
  // The allowance
  // ---------------------------------------------------------------------------------------

  /** The settlement was let in: its run is in the queue. */
  predicate LetIn(w: World, s: SessionId, r: RunId) {
    r in Step(w, Admission(s, r)).q.runs
  }

  /** A settlement is let in, and queued as the session's own, exactly while fewer than five have been and nobody has claimed or refunded the session. */
  lemma LetInIff(w: World, s: SessionId, r: RunId)
    requires Inv(w) && Honest(w, Admission(s, r))
    ensures LetIn(w, s, r) <==> Of(w, s).runs < 5 && !Of(w, s).finishing && !Of(w, s).refunded
    ensures LetIn(w, s, r) ==>
      && Step(w, Admission(s, r)).q.runs[r] == WorkQueue.Run(s, Settlement, Queued)
      && Step(w, Admission(s, r)).q.pending == w.q.pending + [r]
    ensures !LetIn(w, s, r) ==> Step(w, Admission(s, r)) == w
  {
    SubmitKeepsInv(w.q, r, s, Settlement);
  }

  /** How many settlements of a session a run has let in. */
  function LetInSoFar(history: nat, actions: seq<Action>, s: SessionId): nat {
    if actions == [] then 0
    else
      var shorter, last := actions[..|actions| - 1], actions[|actions| - 1];
      LetInSoFar(history, shorter, s) +
      if last.Admission? && last.session == s && LetIn(Run(history, shorter), s, last.run) then 1 else 0
  }

  /** Over every interleaving a session is charged once for each settlement let in, and never for a sixth. */
  lemma {:induction false} TheAllowanceIsFive(history: nat, actions: seq<Action>, s: SessionId)
    requires HonestRun(history, actions)
    ensures Of(Run(history, actions), s).runs == LetInSoFar(history, actions, s) <= 5
  {
    if actions != [] {
      var shorter, last := actions[..|actions| - 1], actions[|actions| - 1];
      var w := Run(history, shorter);
      TheAllowanceIsFive(history, shorter, s);
      EveryRunKeepsInv(history, shorter);
      if last.Admission? {
        LetInIff(w, last.session, last.run);
        AdmissionCharges(w, last.session, last.run, s);
      } else {
        OnlyAdmissionsCharge(w, last, s);
      }
    }
  }

  lemma AdmissionCharges(w: World, s: SessionId, r: RunId, x: SessionId)
    requires Inv(w) && Honest(w, Admission(s, r))
    ensures Of(Step(w, Admission(s, r)), x).runs == Of(w, x).runs + if x == s && LetIn(w, s, r) then 1 else 0
  {
    LetInIff(w, s, r);
  }

  lemma OnlyAdmissionsCharge(w: World, action: Action, s: SessionId)
    requires !action.Admission?
    ensures Of(Step(w, action), s).runs == Of(w, s).runs
  {
  }

  // ---------------------------------------------------------------------------------------
  // Retrying a refund that failed
  // ---------------------------------------------------------------------------------------

  /** One thread's pass through `_refund` as far as its claim, with nobody in between. */
  function Pass(w: World, t: ThreadId, s: SessionId): World {
    Step(Step(Step(Step(Step(w, Enter(t, s)), Observe(t)), Look(t)), Report(t)), Claim(t))
  }

  /**
   * A refund that failed can be claimed again exactly while the queue still remembers the run.
   * Once `_trim` has forgotten it nobody can learn that it failed, and the session stays
   * claimed for good.
   */
  lemma RetryIff(w: World, t: ThreadId, s: SessionId, r: RunId)
    requires Inv(w) && t !in w.threads
    requires Of(w, s).finishing && Of(w, s).refundRun == Some(r) && r in w.ended && !w.ended[r].Succeeded?
    ensures (t in Pass(w, t, s).threads && Owns(Pass(w, t, s).threads[t])) <==> r in w.q.runs
  {
    var seen := Step(Step(w, Enter(t, s)), Observe(t));
    assert s in w.sessions && !Of(w, s).refunded;
    assert seen.threads[t] == Observed(s, r) && seen.q == w.q && seen.sessions == w.sessions;
    var looked := Step(seen, Look(t));
    assert looked.sessions == w.sessions;
    assert looked.threads[t] == if r in w.q.runs then Saw(s, r, false) else Reconciled(s);
  }

  /** A thread that finds the session refunded, or loses the claim to another, goes away and leaves everything as it was. */
  lemma TheLoserLeavesNoTrace(w: World, t: ThreadId, s: SessionId)
    requires t !in w.threads
    requires Of(w, s).refunded || (Of(w, s).finishing && Of(w, s).refundRun.None?)
    ensures Step(Step(Step(w, Enter(t, s)), Observe(t)), Claim(t)) == w
  {
    var seen := Step(Step(w, Enter(t, s)), Observe(t));
    assert seen.threads[t] == Reconciled(s);
    assert Step(seen, Claim(t)).threads == w.threads;
  }

  /** An owner that cannot queue its refund takes the claim with it: the session is as free to settle, and to be claimed, as before. */
  lemma GivingUpUndoesTheClaim(w: World, t: ThreadId)
    requires Inv(w) && t in w.threads && w.threads[t].Named?
    ensures var after := Step(w, GiveUp(t)); var s := w.threads[t].session;
      && t !in after.threads && after.q == w.q
      && Of(after, s) == Of(w, s).(finishing := false, refundRun := None) && !Of(after, s).refunded
      && forall x :: x != s ==> Of(after, x) == Of(w, x)
  {
  }

  /** The session names a failed refund nobody remembers, and no thread has read its outcome. */
  ghost predicate Forgotten(w: World, s: SessionId, r: RunId) {
    && Of(w, s).finishing && !Of(w, s).refunded && Of(w, s).refundRun == Some(r)
    && r in w.ended && r !in w.q.runs && r in w.minted
    && forall t :: t in w.threads && w.threads[t].session == s ==> !Owns(w.threads[t]) && !(w.threads[t].Saw? && w.threads[t].run == r)
  }

  /** Steps by which nobody reads what became of a run, and nothing new is queued. */
  lemma OtherStepsForgetToo(w: World, action: Action, s: SessionId, r: RunId)
    requires Honest(w, action) && Forgotten(w, s, r)
    requires action.Enter? || action.Observe? || action.Claim? || action.Name? || action.GiveUp?
    ensures Forgotten(Step(w, action), s, r)
  {
  }

  lemma TheWorkerForgetsToo(w: World, action: Action, s: SessionId, r: RunId)
    requires Honest(w, action) && Forgotten(w, s, r) && (action.Take? || action.Start? || action.End? || action.Drop?)
    ensures Forgotten(Step(w, action), s, r)
  {
  }

  /** No look at the queue finds the run, and a report of another run is not about it. */
  lemma ReadersLearnNothing(w: World, action: Action, s: SessionId, r: RunId)
    requires Forgotten(w, s, r) && (action.Look? || action.Report?)
    ensures Forgotten(Step(w, action), s, r)
  {
  }

  lemma SubmissionsForgetToo(w: World, action: Action, s: SessionId, r: RunId)
    requires Inv(w) && Honest(w, action) && Forgotten(w, s, r) && (action.Admission? || action.Enqueue?)
    ensures Forgotten(Step(w, action), s, r)
  {
    match action
    case Admission(x, id) =>
      if Check(Of(w, x)).None? {
        SubmitKeepsInv(w.q, id, x, Settlement);
      }
    case Enqueue(t) =>
      if t in w.threads && w.threads[t].Named? {
        SubmitKeepsInv(w.q, w.threads[t].run, w.threads[t].session, Refund);
      }
  }

  lemma ForgottenIsForever(w: World, action: Action, s: SessionId, r: RunId)
    requires Inv(w) && Honest(w, action) && Forgotten(w, s, r)
    ensures Forgotten(Step(w, action), s, r)
  {
    if action.Admission? || action.Enqueue? {
      SubmissionsForgetToo(w, action, s, r);
    } else if action.Look? || action.Report? {
      ReadersLearnNothing(w, action, s, r);
    } else if action.Take? || action.Start? || action.End? || action.Drop? {
      TheWorkerForgetsToo(w, action, s, r);
    } else {
      OtherStepsForgetToo(w, action, s, r);
    }
  }

  /** So over whole runs: whatever any thread or the worker does afterwards, the session stays claimed. */
  lemma {:induction false} ForgottenForGood(history: nat, actions: seq<Action>, n: nat, s: SessionId, r: RunId)
    requires HonestRun(history, actions) && n <= |actions| && Forgotten(Run(history, actions[..n]), s, r)
    ensures Forgotten(Run(history, actions), s, r)
  {
    if n == |actions| {
      assert actions[..n] == actions;
    } else {
      var shorter := actions[..|actions| - 1];
      assert shorter[..n] == actions[..n];
      ForgottenForGood(history, shorter, n, s, r);
      EveryRunKeepsInv(history, shorter);
      ForgottenIsForever(Run(history, shorter), actions[|actions| - 1], s, r);
    }
  }

  // ---------------------------------------------------------------------------------------
  // A refund that is forgotten
  // ---------------------------------------------------------------------------------------

  /**
   * However long the history is, an honest run gets there: a refund fails, and before anybody
   * asks after it, settlements of other sessions push it out.
   */
  lemma ARefundCanBeForgotten(history: nat) returns (actions: seq<Action>)
    ensures HonestRun(history, actions)
    ensures Forgotten(Run(history, actions), 0, 0)
  {
    var failing := AFailedRefund(history);
    actions := PushedOut(history, failing, 0);
  }

  /** The refund 0 of session 0 has failed with nobody looking, and `k` settlements stand behind it. */
  ghost predicate FailedUnseen(w: World, history: nat, k: nat) {
    && Of(w, 0) == SessionState(0, true, false, Some(0)) && w.threads == map[]
    && 0 in w.ended && 0 in w.q.runs && w.q.runs[0].status == Failed
    && w.q.history == history && |w.q.order| == k + 1 && w.q.order[0] == 0
    && (forall r: RunId :: r in w.minted <==> r <= k)
    && (forall s: SessionId :: s in w.sessions ==> s <= k)
  }

  lemma OneMore(history: nat, actions: seq<Action>, action: Action) returns (longer: seq<Action>)
    requires HonestRun(history, actions) && Honest(Run(history, actions), action)
    ensures HonestRun(history, longer) && Run(history, longer) == Step(Run(history, actions), action)
  {
    longer := actions + [action];
    assert longer[..|actions|] == actions;
  }

  /** A thread claims session 0 and names its refund. */
  lemma ANamedRefund(history: nat) returns (actions: seq<Action>)
    ensures HonestRun(history, actions)
    ensures Run(history, actions) == AtBoot(history).(
      sessions := map[0 := SessionState(0, true, false, Some(0))], threads := map[0 := Named(0, 0)], minted := {0})
  {
    actions := OneMore(history, [], Enter(0, 0));
    actions := OneMore(history, actions, Observe(0));
    actions := OneMore(history, actions, Claim(0));
    actions := OneMore(history, actions, Name(0, 0));
  }

  lemma AFailedRefund(history: nat) returns (actions: seq<Action>)
    ensures HonestRun(history, actions) && FailedUnseen(Run(history, actions), history, 0)
  {
    actions := ANamedRefund(history);
    ItIsQueued(Run(history, actions), history);
    actions := OneMore(history, actions, Enqueue(0));
    ItFails(Run(history, actions), history);
    actions := OneMore(history, actions, Take);
    actions := OneMore(history, actions, Start);
    actions := OneMore(history, actions, End(Failed));
    actions := OneMore(history, actions, Drop);
  }

  ghost predicate QueuedUnseen(w: World, history: nat) {
    && w.sessions == map[0 := SessionState(0, true, false, Some(0))] && w.threads == map[] && w.minted == {0}
    && w.q == State([0], map[0 := WorkQueue.Run(0, Refund, Queued)], [0], None, false, history)
  }

  lemma ItIsQueued(w: World, history: nat)
    requires w == AtBoot(history).(
      sessions := map[0 := SessionState(0, true, false, Some(0))], threads := map[0 := Named(0, 0)], minted := {0})
    ensures QueuedUnseen(Step(w, Enqueue(0)), history)
  {
    var queued := w.q.(runs := map[0 := WorkQueue.Run(0, Refund, Queued)], order := [0], pending := [0]);
    assert w.q.runs[0 := WorkQueue.Run(0, Refund, Queued)] == queued.runs;
    assert Trimmed(queued) == queued;
    assert Gone(w, 0).threads == map[];
  }

  lemma ItFails(w: World, history: nat)
    requires QueuedUnseen(w, history)
    ensures FailedUnseen(Step(Step(Step(Step(w, Take), Start), End(Failed)), Drop), history, 0)
  {
  }

  /** Another session's settlement either joins the queue behind it or pushes it out. */
  lemma AnotherSettlement(w: World, history: nat, k: nat)
    requires Inv(w) && FailedUnseen(w, history, k)
    ensures var after := Step(w, Admission(k + 1, k + 1));
      if k + 2 <= history then FailedUnseen(after, history, k + 1) else Forgotten(after, 0, 0)
  {
    var after := Step(w, Admission(k + 1, k + 1));
    var queued := w.q.(
      runs := w.q.runs[k + 1 := WorkQueue.Run(k + 1, Settlement, Queued)], order := w.q.order + [k + 1], pending := w.q.pending + [k + 1]);
    assert after.q == Trimmed(queued);
    if k + 2 <= history {
      assert after.q == queued;
    } else {
      TrimForgetsOnlyFinished(queued.(order := queued.order[1..], runs := Forgetting(queued.runs, 0)));
    }
  }

  lemma {:induction false} PushedOut(history: nat, actions: seq<Action>, k: nat) returns (longer: seq<Action>)
    requires HonestRun(history, actions) && FailedUnseen(Run(history, actions), history, k)
    ensures HonestRun(history, longer) && Forgotten(Run(history, longer), 0, 0)
    decreases if k <= history then history - k else 0
  {
    EveryRunKeepsInv(history, actions);
    AnotherSettlement(Run(history, actions), history, k);
    longer := OneMore(history, actions, Admission(k + 1, k + 1));
    if k + 2 <= history {
      longer := PushedOut(history, longer, k + 1);
    }
  }
}
