/**
  * The FIFO operation queue of one Session: submitters, the worker, Drain and Close in every
  * interleaving of their lock-protected steps.
  */
module SessionQueue {
  import opened Common

  /** The fields guarded by the entry's own mutex; active is the operation Close can cancel. */
  datatype Guarded = Guarded(closed: bool, draining: bool, pending: nat, active: Option<nat>)

  function Accepted(g: Guarded): Guarded {
    g.(pending := g.pending + 1)
  }

  function Completed(g: Guarded): Guarded {
    g.(pending := if g.pending > 0 then g.pending - 1 else 0)
  }

  /**
    * ended: the caller's context is done; timedOut and cancelled: why the operation's own context is;
    * results: replies sent.
    */
  datatype Job = Job(admitted: bool, ended: bool, timedOut: bool, cancelled: bool, results: nat)

  /** Progress of the submitter that holds the queue mutex. */
  datatype Submit = NoSubmit | Checked | Counted | Rejecting

  /** Progress of the one Close that closes this entry; it holds the queue mutex from Locked to Removed. */
  datatype Close = NotClosing | Locked | Marked | Removed | Unlocked | Read(cancel: Option<nat>) | Returned

  datatype Worker =
    | Idle | Waiting(job: nat) | Rechecking(job: nat) | ContextCheck(job: nat) | Arming(job: nat) | Executing(job: nat)
    | Clearing(job: nat) | Delivering(job: nat) | Completing(job: nat) | Stopped

  /** Jobs in admission order; those from head on are in the channel. started logs executions. */
  datatype State = State(
    guarded: Guarded,
    mapped: bool,
    jobs: seq<Job>,
    head: nat,
    channelClosed: bool,
    submit: Submit,
    close: Close,
    worker: Worker,
    started: seq<nat>)

  datatype Event =
    | SubmitStep
    | AdmissionClosed(job: nat)
    | ContextEnded(job: nat)
    | TimedOut
    | Drained
    | CloseStep
    | WorkerStep(admitted: bool)

  ghost predicate LockFree(s: State) {
    s.submit.NoSubmit? && !(s.close.Locked? || s.close.Marked? || s.close.Removed?)
  }

  ghost function Queued(s: State): int {
    |s.jobs| - s.head
  }

  ghost predicate HasJob(s: State, j: nat) {
    j < |s.jobs|
  }

  /** The context of a running operation is done. */
  ghost predicate ContextDone(s: State, j: nat)
    requires HasJob(s, j)
  {
    s.jobs[j].ended || s.jobs[j].timedOut || s.jobs[j].cancelled
  }

  ghost predicate Enabled(capacity: nat, s: State, e: Event) {
    match e
    case SubmitStep => (s.submit.NoSubmit? ==> LockFree(s) && s.mapped && !s.guarded.closed && !s.guarded.draining)
    case AdmissionClosed(job) => HasJob(s, job)
    case ContextEnded(job) => HasJob(s, job)
    case TimedOut => s.worker.Executing? && HasJob(s, s.worker.job)
    case Drained => LockFree(s) && s.mapped
    case CloseStep =>
      && (s.close.NotClosing? ==> LockFree(s) && s.mapped && !s.guarded.closed)
      && (s.close.Read? && s.close.cancel.Some? ==> HasJob(s, s.close.cancel.value))
      && !s.close.Returned?
    case WorkerStep(admitted) =>
      match s.worker
      case Idle => s.head < |s.jobs| || s.channelClosed
      case Waiting(j) => HasJob(s, j) && (if admitted then s.jobs[j].admitted else s.jobs[j].ended)
      case Stopped => false
      case _ => HasJob(s, s.worker.job)
  }

  ghost function Cancel(s: State, j: nat): State
    requires HasJob(s, j)
  {
    s.(jobs := s.jobs[j := s.jobs[j].(cancelled := true)])
  }

  ghost function Step(capacity: nat, s: State, e: Event): State
    requires Enabled(capacity, s, e)
  {
    match e
    case SubmitStep => SubmitNext(capacity, s)
    case AdmissionClosed(job) => s.(jobs := s.jobs[job := s.jobs[job].(admitted := true)])
    case ContextEnded(job) => s.(jobs := s.jobs[job := s.jobs[job].(ended := true)])
    case TimedOut => s.(jobs := s.jobs[s.worker.job := s.jobs[s.worker.job].(timedOut := true)])
    case Drained => s.(guarded := s.guarded.(draining := true))
    case CloseStep => CloseNext(s)
    case WorkerStep(admitted) => WorkerNext(s, admitted)
  }

  /** Checks that the entry accepts, counts the job, then sends it or gives it up when the channel is full. */
  ghost function SubmitNext(capacity: nat, s: State): State {
    match s.submit
    case NoSubmit => s.(submit := Checked)
    case Checked => s.(guarded := Accepted(s.guarded), submit := Counted)
    case Counted =>
      if Queued(s) < capacity then s.(jobs := s.jobs + [Job(false, false, false, false, 0)], submit := NoSubmit)
      else s.(submit := Rejecting)
    case Rejecting => s.(guarded := Completed(s.guarded), submit := NoSubmit)
  }

  ghost function CloseNext(s: State): State
    requires s.close.Read? && s.close.cancel.Some? ==> HasJob(s, s.close.cancel.value)
  {
    match s.close
    case NotClosing => s.(close := Locked)
    case Locked => s.(guarded := s.guarded.(closed := true), close := Marked)
    case Marked => s.(mapped := false, close := Removed)
    case Removed => s.(channelClosed := true, close := Unlocked)
    case Unlocked => s.(close := Read(s.guarded.active))
    case Read(cancel) => (if cancel.Some? then Cancel(s, cancel.value) else s).(close := Returned)
    case Returned => s
  }

  ghost function WorkerNext(s: State, admitted: bool): State
    requires !s.worker.Idle? && !s.worker.Stopped? ==> HasJob(s, s.worker.job)
  {
    match s.worker
    case Idle => if s.head < |s.jobs| then s.(worker := Waiting(s.head), head := s.head + 1) else s.(worker := Stopped)
    case Waiting(j) => s.(worker := if admitted then Rechecking(j) else Delivering(j))
    case Rechecking(j) => s.(worker := if s.guarded.closed then Delivering(j) else ContextCheck(j))
    case ContextCheck(j) => s.(worker := if s.jobs[j].ended then Delivering(j) else Arming(j))
    case Arming(j) =>
      if s.guarded.closed then Cancel(s, j).(worker := Delivering(j))
      else s.(guarded := s.guarded.(active := Some(j)), worker := Executing(j), started := s.started + [j])
    case Executing(j) => Cancel(s, j).(worker := Clearing(j))
    case Clearing(j) => s.(guarded := s.guarded.(active := None), worker := Delivering(j))
    case Delivering(j) => s.(jobs := s.jobs[j := s.jobs[j].(results := s.jobs[j].results + 1)], worker := Completing(j))
    case Completing(_) => s.(guarded := Completed(s.guarded), worker := Idle)
    case Stopped => s
  }

  ghost predicate Initial(s: State) {
    s == State(Guarded(false, false, 0, None), true, [], 0, false, NoSubmit, NotClosing, Idle, [])
  }

  ghost predicate Behaviour(capacity: nat, ss: seq<State>, es: seq<Event>) {
    && |ss| == |es| + 1 && Initial(ss[0])
    && forall i :: 0 <= i < |es| ==> Enabled(capacity, ss[i], es[i]) && ss[i + 1] == Step(capacity, ss[i], es[i])
  }

  // ---- the invariant --------------------------------------------------------

  ghost predicate Holding(w: Worker) {
    !w.Idle? && !w.Stopped?
  }

  /** pending is what is queued, in the worker's hands, or in the middle of its submission. */
  ghost predicate PendingOk(capacity: nat, s: State) {
    && s.head <= |s.jobs| && Queued(s) <= capacity
    && s.guarded.pending
        == Queued(s) + (if Holding(s.worker) then 1 else 0)
        + (if s.submit.Counted? || s.submit.Rejecting? then 1 else 0)
    && (Holding(s.worker) ==> s.worker.job == s.head - 1)
    && (s.worker.Stopped? ==> s.channelClosed && Queued(s) == 0)
  }

  /** Close goes through its stages once, and nothing is submitted once it has begun. */
  ghost predicate CloseOk(s: State) {
    && (s.guarded.closed <==> !s.close.NotClosing? && !s.close.Locked?)
    && (s.mapped <==> s.close.NotClosing? || s.close.Locked? || s.close.Marked?)
    && (s.channelClosed <==> s.close.Unlocked? || s.close.Read? || s.close.Returned?)
    && (!s.submit.NoSubmit? ==> s.close.NotClosing?)
  }

  /** The active operation is the running one, and Close has it in hand or has cancelled it. */
  ghost predicate ActiveOk(s: State) {
    && s.guarded.active == (if s.worker.Executing? || s.worker.Clearing? then Some(s.worker.job) else None)
    && (s.close.Read? && s.close.cancel.Some? ==> HasJob(s, s.close.cancel.value))
    && (s.close.Read? && s.worker.Executing? ==> s.close.cancel == Some(s.worker.job))
  }

  /** The job in the worker's hands has no reply yet. */
  ghost predicate Unanswered(s: State, k: nat) {
    k >= s.head || (k == s.head - 1 && Holding(s.worker) && !s.worker.Completing?)
  }

  ghost predicate ResultsOk(s: State) {
    forall k :: 0 <= k < |s.jobs| ==> s.jobs[k].results == if Unanswered(s, k) then 0 else 1
  }

  ghost predicate Undecided(w: Worker) {
    w.Waiting? || w.Rechecking? || w.ContextCheck? || w.Arming?
  }

  /** Jobs whose execution is still open have not been cancelled, not even by a Close under way. */
  ghost predicate FreshOk(s: State) {
    && (forall k :: 0 <= k < |s.jobs| && Untried(s, k) ==> !s.jobs[k].cancelled)
    && (s.close.Read? && s.close.cancel.Some? ==> !Untried(s, s.close.cancel.value))
    && (s.worker.Executing? && HasJob(s, s.worker.job) ==> (s.jobs[s.worker.job].cancelled <==> s.close.Returned?))
  }

  ghost predicate Untried(s: State, k: nat) {
    k >= s.head || (k == s.head - 1 && Undecided(s.worker))
  }

  ghost predicate StartedOk(s: State) {
    && (forall i, j :: 0 <= i < j < |s.started| ==> s.started[i] < s.started[j])
    && (forall i :: 0 <= i < |s.started| ==> s.started[i] < s.head - if Undecided(s.worker) then 1 else 0)
  }

  ghost predicate Inv(capacity: nat, s: State) {
    PendingOk(capacity, s) && CloseOk(s) && ActiveOk(s) && ResultsOk(s) && StartedOk(s) && FreshOk(s)
  }

  // ---- one step at a time ---------------------------------------------------

  lemma SubmitKeepsInv(capacity: nat, s: State)
    requires Inv(capacity, s) && Enabled(capacity, s, SubmitStep)
    ensures Inv(capacity, SubmitNext(capacity, s))
  {
  }

  lemma JobEventKeepsInv(capacity: nat, s: State, e: Event)
    requires Inv(capacity, s) && Enabled(capacity, s, e)
    requires (e.AdmissionClosed? || e.ContextEnded? || e.TimedOut? || e.Drained?)
    ensures Inv(capacity, Step(capacity, s, e))
  {
  }

  lemma CloseKeepsInv(capacity: nat, s: State)
    requires Inv(capacity, s) && Enabled(capacity, s, CloseStep)
    ensures Inv(capacity, CloseNext(s))
  {
  }

  lemma WorkerKeepsCounts(capacity: nat, s: State, admitted: bool)
    requires Inv(capacity, s) && Enabled(capacity, s, WorkerStep(admitted))
    ensures PendingOk(capacity, WorkerNext(s, admitted))
  {
    hide CloseOk, ActiveOk, ResultsOk, StartedOk, FreshOk;
    var t := WorkerNext(s, admitted);
    if !s.worker.Idle? && !s.worker.Completing? {
      SameCounts(capacity, s, t);
    }
  }

  lemma SameCounts(capacity: nat, s: State, t: State)
    requires PendingOk(capacity, s) && Holding(s.worker) && Holding(t.worker) && t.worker.job == s.worker.job
    requires |t.jobs| == |s.jobs| && t.head == s.head && t.guarded.pending == s.guarded.pending && t.submit == s.submit
    ensures PendingOk(capacity, t)
  {
  }

  lemma WorkerKeepsResults(capacity: nat, s: State, admitted: bool)
    requires Inv(capacity, s) && Enabled(capacity, s, WorkerStep(admitted))
    ensures ResultsOk(WorkerNext(s, admitted))
  {
    hide CloseOk, ActiveOk, StartedOk, FreshOk;
    var t := WorkerNext(s, admitted);
    if s.worker.Delivering? {
      DeliveredResults(s, t);
    } else {
      SameResults(s, t);
    }
  }

  lemma SameResults(s: State, t: State)
    requires ResultsOk(s) && |t.jobs| == |s.jobs|
    requires forall k :: 0 <= k < |s.jobs| ==>
               t.jobs[k].results == s.jobs[k].results && (Unanswered(t, k) <==> Unanswered(s, k))
    ensures ResultsOk(t)
  {
  }

  lemma DeliveredResults(s: State, t: State)
    requires ResultsOk(s) && s.worker.Delivering? && s.worker.job == s.head - 1 < |s.jobs| && t == WorkerNext(s, true)
    ensures ResultsOk(t)
  {
  }

  lemma WorkerKeepsActive(capacity: nat, s: State, admitted: bool)
    requires Inv(capacity, s) && Enabled(capacity, s, WorkerStep(admitted))
    ensures CloseOk(WorkerNext(s, admitted)) && ActiveOk(WorkerNext(s, admitted))
  {
    hide PendingOk, ResultsOk, StartedOk, FreshOk;
  }

  lemma WorkerKeepsFresh(capacity: nat, s: State, admitted: bool)
    requires Inv(capacity, s) && Enabled(capacity, s, WorkerStep(admitted))
    ensures FreshOk(WorkerNext(s, admitted))
  {
    hide ResultsOk, StartedOk;
  }

  lemma WorkerKeepsStarted(capacity: nat, s: State, admitted: bool)
    requires Inv(capacity, s) && Enabled(capacity, s, WorkerStep(admitted))
    ensures StartedOk(WorkerNext(s, admitted))
  {
    hide CloseOk, ActiveOk, ResultsOk, FreshOk;
  }

  lemma WorkerKeepsInv(capacity: nat, s: State, admitted: bool)
    requires Inv(capacity, s) && Enabled(capacity, s, WorkerStep(admitted))
    ensures Inv(capacity, WorkerNext(s, admitted))
  {
    hide PendingOk, CloseOk, ActiveOk, ResultsOk, StartedOk, FreshOk;
    WorkerKeepsCounts(capacity, s, admitted);
    WorkerKeepsResults(capacity, s, admitted);
    WorkerKeepsActive(capacity, s, admitted);
    WorkerKeepsStarted(capacity, s, admitted);
    WorkerKeepsFresh(capacity, s, admitted);
  }

  lemma StepKeepsInv(capacity: nat, s: State, e: Event)
    requires Inv(capacity, s) && Enabled(capacity, s, e)
    ensures Inv(capacity, Step(capacity, s, e))
  {
    hide Inv;
    match e
    case SubmitStep => SubmitKeepsInv(capacity, s);
    case CloseStep => CloseKeepsInv(capacity, s);
    case WorkerStep(admitted) => WorkerKeepsInv(capacity, s, admitted);
    case _ => JobEventKeepsInv(capacity, s, e);
  }

  lemma {:induction false} BehaviourKeepsInv(capacity: nat, ss: seq<State>, es: seq<Event>, n: nat)
    requires Behaviour(capacity, ss, es) && n < |ss|
    ensures Inv(capacity, ss[n])
  {
    if n > 0 {
      BehaviourKeepsInv(capacity, ss, es, n - 1);
      assert Enabled(capacity, ss[n - 1], es[n - 1]) && ss[n - 1 + 1] == Step(capacity, ss[n - 1], es[n - 1]);
      StepKeepsInv(capacity, ss[n - 1], es[n - 1]);
    }
  }

  // ---- the theorems ---------------------------------------------------------

  /** After Close has returned, an operation that still runs has had its context cancelled. */
  lemma CloseCancelsRunning(capacity: nat, ss: seq<State>, es: seq<Event>, n: nat)
    requires Behaviour(capacity, ss, es) && n < |ss| && ss[n].close.Returned? && ss[n].worker.Executing?
    ensures HasJob(ss[n], ss[n].worker.job) && ContextDone(ss[n], ss[n].worker.job)
  {
    BehaviourKeepsInv(capacity, ss, es, n);
  }

  /** No operation starts once Close has marked the entry. */
  lemma {:induction false} ClosedStartsNothing(capacity: nat, ss: seq<State>, es: seq<Event>, i: nat, j: nat)
    requires Behaviour(capacity, ss, es) && i <= j < |ss| && ss[i].guarded.closed
    ensures ss[j].guarded.closed && ss[j].started == ss[i].started
  {
    hide *;
    if i < j {
      ClosedStartsNothing(capacity, ss, es, i, j - 1);
      StepOf(capacity, ss, es, j - 1);
      ClosedStays(capacity, ss[j - 1], es[j - 1]);
    }
  }

  lemma StepOf(capacity: nat, ss: seq<State>, es: seq<Event>, i: nat)
    requires Behaviour(capacity, ss, es) && i + 1 < |ss|
    ensures |ss| == |es| + 1 && Enabled(capacity, ss[i], es[i]) && ss[i + 1] == Step(capacity, ss[i], es[i])
  {
  }

  lemma ClosedStays(capacity: nat, s: State, e: Event)
    requires Enabled(capacity, s, e) && s.guarded.closed
    ensures Step(capacity, s, e).guarded.closed && Step(capacity, s, e).started == s.started
  {
  }

  /** The jobs channel is sent to only while open, and closed at most once. */
  lemma ChannelIsUsedOpen(capacity: nat, ss: seq<State>, es: seq<Event>, n: nat)
    requires Behaviour(capacity, ss, es) && n < |es|
    ensures (es[n].SubmitStep? && ss[n].submit.Counted?) || (es[n].CloseStep? && ss[n].close.Removed?) ==>
              !ss[n].channelClosed
  {
    BehaviourKeepsInv(capacity, ss, es, n);
  }

  /** A reply finds the one-slot result channel empty, and every job the worker is done with has exactly one. */
  lemma OneReplyPerJob(capacity: nat, ss: seq<State>, es: seq<Event>, n: nat, k: nat)
    requires Behaviour(capacity, ss, es) && n < |ss| && k < |ss[n].jobs|
    ensures ss[n].worker == Delivering(k) ==> ss[n].jobs[k].results == 0
    ensures ss[n].jobs[k].results == if Unanswered(ss[n], k) then 0 else 1
  {
    BehaviourKeepsInv(capacity, ss, es, n);
  }

  /** pending always equals queued jobs plus the worker's job plus one mid-submission. */
  lemma PendingIsExact(capacity: nat, ss: seq<State>, es: seq<Event>, n: nat)
    requires Behaviour(capacity, ss, es) && n < |ss|
    ensures ss[n].guarded.pending
         == Queued(ss[n]) + (if Holding(ss[n].worker) then 1 else 0)
             + (if ss[n].submit.Counted? || ss[n].submit.Rejecting? then 1 else 0)
  {
    BehaviourKeepsInv(capacity, ss, es, n);
  }

  /** Operations run in admission order, each at most once. */
  lemma RunsInAdmissionOrder(capacity: nat, ss: seq<State>, es: seq<Event>, n: nat, i: nat, j: nat)
    requires Behaviour(capacity, ss, es) && n < |ss| && i < j < |ss[n].started|
    ensures ss[n].started[i] < ss[n].started[j] < |ss[n].jobs|
  {
    BehaviourKeepsInv(capacity, ss, es, n);
  }

  /** Nothing is queued, held or being submitted, and nothing can be. */
  ghost predicate Quiet(s: State) {
    s.guarded.draining && s.head == |s.jobs| && !Holding(s.worker) && s.submit.NoSubmit?
  }

  lemma QuietStays(capacity: nat, s: State, e: Event)
    requires Quiet(s) && Enabled(capacity, s, e)
    ensures Quiet(Step(capacity, s, e)) && Step(capacity, s, e).started == s.started
  {
  }

  lemma DrainedIsQuiet(capacity: nat, s: State)
    requires Inv(capacity, s) && Enabled(capacity, s, Drained) && s.guarded.pending == 0
    ensures Quiet(Step(capacity, s, Drained)) && Step(capacity, s, Drained).started == s.started
  {
  }

  /** Once Drain has reported true, no operation ever runs again on the entry. */
  lemma {:induction false} DrainedRunsNothing(capacity: nat, ss: seq<State>, es: seq<Event>, i: nat, j: nat)
    requires Behaviour(capacity, ss, es) && i < |es| && es[i].Drained? && ss[i].guarded.pending == 0 && i < j < |ss|
    ensures Quiet(ss[j]) && ss[j].started == ss[i].started
  {
    hide Inv, Quiet, Step, Enabled;
    if j == i + 1 {
      BehaviourKeepsInv(capacity, ss, es, i);
      assert Enabled(capacity, ss[i], es[i]) && ss[i + 1] == Step(capacity, ss[i], es[i]);
      DrainedIsQuiet(capacity, ss[i]);
    } else {
      DrainedRunsNothing(capacity, ss, es, i, j - 1);
      assert Enabled(capacity, ss[j - 1], es[j - 1]) && ss[j - 1 + 1] == Step(capacity, ss[j - 1], es[j - 1]);
      QuietStays(capacity, ss[j - 1], es[j - 1]);
    }
  }

  // ---- a second Close -------------------------------------------------------

  /** Another Close finds the entry gone and returns at once. */
  ghost predicate SecondCloseReturns(s: State) {
    LockFree(s) && s.guarded.closed && !s.mapped
  }

  lemma Extend(capacity: nat, ss: seq<State>, es: seq<Event>, e: Event, t: State)
    requires Behaviour(capacity, ss, es) && Enabled(capacity, ss[|es|], e) && t == Step(capacity, ss[|es|], e)
    ensures Behaviour(capacity, ss + [t], es + [e]) && (ss + [t])[|es| + 1] == t
  {
  }

  /** An operation is submitted, admitted and starts. */
  lemma OneStarts(capacity: nat) returns (ss: seq<State>, es: seq<Event>)
    requires capacity > 0
    ensures Behaviour(capacity, ss, es)
    ensures ss[|es|] == State(Guarded(false, false, 1, Some(0)), true, [Job(true, false, false, false, 0)], 1, false,
              NoSubmit, NotClosing, Executing(0), [0])
  {
    ss, es := [State(Guarded(false, false, 0, None), true, [], 0, false, NoSubmit, NotClosing, Idle, [])], [];
    ss, es := Play(capacity, ss, es, SubmitStep);
    ss, es := Play(capacity, ss, es, SubmitStep);
    ss, es := Play(capacity, ss, es, SubmitStep);
    ss, es := Play(capacity, ss, es, WorkerStep(true));
    ss, es := Play(capacity, ss, es, AdmissionClosed(0));
    ss, es := Play(capacity, ss, es, WorkerStep(true));
    ss, es := Play(capacity, ss, es, WorkerStep(true));
    ss, es := Play(capacity, ss, es, WorkerStep(true));
    ss, es := Play(capacity, ss, es, WorkerStep(true));
  }

  lemma Play(capacity: nat, ss: seq<State>, es: seq<Event>, e: Event) returns (ss': seq<State>, es': seq<Event>)
    requires Behaviour(capacity, ss, es) && Enabled(capacity, ss[|es|], e)
    ensures Behaviour(capacity, ss', es') && es' == es + [e] && ss'[|es'|] == Step(capacity, ss[|es|], e)
  {
    Extend(capacity, ss, es, e, Step(capacity, ss[|es|], e));
    ss', es' := ss + [Step(capacity, ss[|es|], e)], es + [e];
  }

  /** A concurrent second Close can return while the operation still runs uncancelled. */
  lemma SecondCloseIsEarly(capacity: nat) returns (ss: seq<State>, es: seq<Event>)
    requires capacity > 0
    ensures Behaviour(capacity, ss, es) && SecondCloseReturns(ss[|es|])
    ensures ss[|es|].worker == Executing(0) && HasJob(ss[|es|], 0) && !ContextDone(ss[|es|], 0)
    ensures !ss[|es|].close.Returned?
  {
    ss, es := OneStarts(capacity);
    ss, es := Play(capacity, ss, es, CloseStep);
    ss, es := Play(capacity, ss, es, CloseStep);
    ss, es := Play(capacity, ss, es, CloseStep);
    ss, es := Play(capacity, ss, es, CloseStep);
  }

  /** A second Close can return now, and the running operation would not know. */
  ghost predicate Unsafe(s: State) {
    SecondCloseReturns(s) && s.worker.Executing? && HasJob(s, s.worker.job) && !ContextDone(s, s.worker.job)
  }

  /**
    * In every reachable state in which a second Close would return: an operation that runs, and that
    * neither its caller nor its deadline ended, is uncancelled exactly while the first Close has not
    * returned.
    */
  lemma SecondCloseUnsafeIff(capacity: nat, ss: seq<State>, es: seq<Event>, n: nat)
    requires Behaviour(capacity, ss, es) && n < |ss| && SecondCloseReturns(ss[n])
    requires ss[n].worker.Executing? && HasJob(ss[n], ss[n].worker.job)
    requires !ss[n].jobs[ss[n].worker.job].ended && !ss[n].jobs[ss[n].worker.job].timedOut
    ensures Unsafe(ss[n]) <==> !ss[n].close.Returned?
  {
    BehaviourKeepsInv(capacity, ss, es, n);
  }

  // ---- Drain of a removed entry ---------------------------------------------

  /** What Drain answers for the Session: true without a look when the entry is gone. */
  ghost predicate DrainReports(s: State) {
    !s.mapped || s.guarded.pending == 0
  }

  lemma ClosedStaysIdle(capacity: nat, s: State, e: Event)
    requires Enabled(capacity, s, e) && s.guarded.closed && !s.worker.Executing?
    ensures Step(capacity, s, e).guarded.closed && !Step(capacity, s, e).worker.Executing?
  {
  }

  lemma {:induction false} ClosedIdleForever(capacity: nat, ss: seq<State>, es: seq<Event>, i: nat, j: nat)
    requires Behaviour(capacity, ss, es) && i <= j < |ss| && ss[i].guarded.closed && !ss[i].worker.Executing?
    ensures ss[j].guarded.closed && !ss[j].worker.Executing?
  {
    hide *;
    if i < j {
      ClosedIdleForever(capacity, ss, es, i, j - 1);
      StepOf(capacity, ss, es, j - 1);
      ClosedStaysIdle(capacity, ss[j - 1], es[j - 1]);
    }
  }

  /** After Drain has answered true, an operation can still be seen running exactly when it ran in a removed entry. */
  lemma DrainEarlyIff(capacity: nat, ss: seq<State>, es: seq<Event>, i: nat)
    requires Behaviour(capacity, ss, es) && i < |ss| && LockFree(ss[i]) && DrainReports(ss[i])
    requires ss[i].mapped ==> i < |es| && es[i].Drained?
    ensures (exists n :: i <= n < |ss| && ss[n].worker.Executing?) <==> !ss[i].mapped && ss[i].worker.Executing?
  {
    BehaviourKeepsInv(capacity, ss, es, i);
    hide Behaviour, Step, Enabled;
    forall n | i <= n < |ss| && ss[n].worker.Executing? ensures !ss[i].mapped && ss[i].worker.Executing? {
      if ss[i].mapped {
        if n > i {
          DrainedRunsNothing(capacity, ss, es, i, n);
        }
      } else if !ss[i].worker.Executing? {
        ClosedIdleForever(capacity, ss, es, i, n);
      }
    }
  }

  /** Close has just removed the entry: Drain answers true while its operation runs. */
  lemma RemovedDrainIsEarly(capacity: nat) returns (ss: seq<State>, es: seq<Event>)
    requires capacity > 0
    ensures Behaviour(capacity, ss, es) && LockFree(ss[|es|]) && DrainReports(ss[|es|])
    ensures ss[|es|].worker == Executing(0)
  {
    ss, es := SecondCloseIsEarly(capacity);
  }
}
