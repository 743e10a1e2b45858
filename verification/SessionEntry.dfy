/** One queue entry as an object: each of its operations is a run of the queue machine. */
module SessionEntry {
  import opened Common
  import opened SessionQueue

  datatype Admission = Admitted | SessionFinalizing | QueueFull

  /** One queue entry as its lock-protected regions leave it, each run without interruption. */
  class Entry {
    const capacity: nat
    var closed: bool
    var draining: bool
    var pending: nat
    var active: Option<nat>
    var jobs: seq<nat>
    var held: Option<nat>

    /** The counter agrees with the work it stands for. */
    ghost predicate Valid()
      reads this
    {
      && pending == |Outstanding()| && |jobs| <= capacity
      && (active.Some? ==> active == held)
    }

    /** Accepted and not yet completed: the job in the worker's hands, then the queued ones. */
    ghost function Outstanding(): seq<nat>
      reads this
    {
      (if held.Some? then [held.value] else []) + jobs
    }

    /** The entry as the machine has it. */
    ghost predicate Shows(s: State)
      reads this
    {
      && Guarded(closed, draining, pending, active) == s.guarded && s.head <= |s.jobs|
      && held == (if Holding(s.worker) then Some(s.worker.job) else None)
      && jobs == seq(|s.jobs| - s.head, i => s.head + i)
    }

    constructor (capacity: nat)
      ensures this.capacity == capacity && Valid() && Outstanding() == [] && !closed && !draining
    {
      this.capacity := capacity;
      closed, draining, pending, active, jobs, held := false, false, 0, None, [], None;
    }

    /** Admission: last in line, or refused with nothing left behind. */
    method Submit(job: nat) returns (r: Admission)
      requires Valid()
      modifies `pending, `jobs
      ensures Valid() && jobs == if r.Admitted? then old(jobs) + [job] else old(jobs)
      ensures r.SessionFinalizing? <==> old(closed) || old(draining)
      ensures r.QueueFull? <==> !old(closed) && !old(draining) && |old(jobs)| == capacity
      ensures Outstanding() == if r.Admitted? then old(Outstanding()) + [job] else old(Outstanding())
    {
      if closed || draining {
        return SessionFinalizing;
      }
      pending := pending + 1;
      if |jobs| < capacity {
        jobs := jobs + [job];
        return Admitted;
      }
      Complete();
      return QueueFull;
    }

    method Complete()
      modifies `pending
      ensures pending == if old(pending) > 0 then old(pending) - 1 else 0
    {
      if pending > 0 {
        pending := pending - 1;
      }
    }

    /** Stops admission and reports whether all accepted work is done. */
    method Drain() returns (drained: bool)
      requires Valid()
      modifies `draining
      ensures Valid() && draining && (drained <==> Outstanding() == [])
    {
      draining := true;
      drained := pending == 0;
    }

    /** The worker takes the first in line; a job does not stop being outstanding by being taken. */
    method Take()
      requires Valid() && held.None? && jobs != []
      modifies `held, `jobs
      ensures Valid() && jobs == old(jobs)[1..]
      ensures held == Some(old(Outstanding())[0]) && Outstanding() == old(Outstanding())
    {
      held := Some(jobs[0]);
      jobs := jobs[1..];
    }

    /** The held job becomes cancellable, or learns that the session is closed. */
    method SetActive() returns (ok: bool)
      requires Valid() && held.Some?
      modifies `active
      ensures Valid() && ok == !closed
      ensures active == if ok then held else old(active)
    {
      if closed {
        return false;
      }
      active := held;
      return true;
    }

    /** The held job is done with: it is no longer cancellable nor outstanding. */
    method Finish()
      requires Valid() && held.Some?
      modifies `active, `held, `pending
      ensures Valid()
      ensures active == None && held == None && Outstanding() == old(Outstanding())[1..]
    {
      active := None;
      held := None;
      Complete();
    }

    /** Refuses all further work and names the operation to cancel, which can only be the held one. */
    method Close() returns (cancel: Option<nat>)
      requires Valid()
      modifies `closed
      ensures Valid() && closed && cancel == active && (cancel.Some? ==> cancel == held)
    {
      closed := true;
      cancel := active;
    }
  }

  // ---- each operation is a run of the machine -------------------------------

  /** Steps of the machine from one state to another. */
  ghost predicate Path(capacity: nat, s: State, es: seq<Event>, t: State)
    decreases |es|
  {
    if es == [] then t == s
    else Enabled(capacity, s, es[0]) && Path(capacity, Step(capacity, s, es[0]), es[1..], t)
  }

  lemma FirstStep(capacity: nat, s: State, e: Event, es: seq<Event>, t: State)
    requires Enabled(capacity, s, e) && Path(capacity, Step(capacity, s, e), es, t)
    ensures Path(capacity, s, [e] + es, t)
  {
    assert ([e] + es)[1..] == es;
  }

  lemma TwoSteps(capacity: nat, s: State, e: Event, f: Event)
    requires Enabled(capacity, s, e) && Enabled(capacity, Step(capacity, s, e), f)
    ensures Path(capacity, s, [e, f], Step(capacity, Step(capacity, s, e), f))
  {
    var u := Step(capacity, s, e);
    var t := Step(capacity, u, f);
    assert Path(capacity, t, [], t);
    FirstStep(capacity, u, f, [], t);
    FirstStep(capacity, s, e, [f], t);
    assert [f] + [] == [f] && [e] + [f] == [e, f];
  }

  lemma OneStep(capacity: nat, s: State, e: Event)
    requires Enabled(capacity, s, e)
    ensures Path(capacity, s, [e], Step(capacity, s, e))
  {
    FirstStep(capacity, s, e, [], Step(capacity, s, e));
    assert [e] + [] == [e];
  }

  lemma {:induction false} Joined(capacity: nat, s: State, es: seq<Event>, u: State, fs: seq<Event>, t: State)
    requires Path(capacity, s, es, u) && Path(capacity, u, fs, t)
    ensures Path(capacity, s, es + fs, t)
    decreases |es|
  {
    if es == [] {
      assert es + fs == fs;
    } else {
      Joined(capacity, Step(capacity, s, es[0]), es[1..], u, fs, t);
      assert (es + fs)[1..] == es[1..] + fs;
    }
  }

  /** What the three or four steps of a submission come to. */
  lemma SubmissionPath(capacity: nat, s: State)
    requires Inv(capacity, s) && Enabled(capacity, s, SubmitStep) && s.submit.NoSubmit?
    ensures Queued(s) < capacity ==>
              var t := s.(jobs := s.jobs + [Job(false, false, false, false, 0)], guarded := Accepted(s.guarded));
              Path(capacity, s, [SubmitStep, SubmitStep, SubmitStep], t)
    ensures Queued(s) >= capacity ==> Path(capacity, s, [SubmitStep, SubmitStep, SubmitStep, SubmitStep], s)
  {
    var counted := s.(guarded := Accepted(s.guarded), submit := Counted);
    TwoSteps(capacity, s, SubmitStep, SubmitStep);
    if Queued(s) < capacity {
      OneStep(capacity, counted, SubmitStep);
      Joined(capacity, s, [SubmitStep, SubmitStep], counted, [SubmitStep], Step(capacity, counted, SubmitStep));
      assert [SubmitStep, SubmitStep] + [SubmitStep] == [SubmitStep, SubmitStep, SubmitStep];
    } else {
      TwoSteps(capacity, counted, SubmitStep, SubmitStep);
      Joined(capacity, s, [SubmitStep, SubmitStep], counted, [SubmitStep, SubmitStep], s);
      assert [SubmitStep, SubmitStep] + [SubmitStep, SubmitStep] == [SubmitStep, SubmitStep, SubmitStep, SubmitStep];
    }
  }

  lemma PathNowhere(capacity: nat, s: State)
    ensures Path(capacity, s, [], s)
  {
  }

  /** A submitter that found the entry: refused without a step, three steps into the queue, or four and back out. */
  method SubmitToEntry(entry: Entry, job: nat, ghost s: State) returns (r: Admission, ghost t: State)
    requires entry.Valid() && entry.Shows(s) && Inv(entry.capacity, s) && LockFree(s) && s.mapped && job == |s.jobs|
    modifies entry
    ensures entry.Valid() && entry.Shows(t)
    ensures Path(entry.capacity, s, match r case SessionFinalizing => []
                                            case Admitted => [SubmitStep, SubmitStep, SubmitStep]
                                            case QueueFull => [SubmitStep, SubmitStep, SubmitStep, SubmitStep], t)
    ensures t.jobs == if r.Admitted? then s.jobs + [Job(false, false, false, false, 0)] else s.jobs
  {
    hide Path;
    r := entry.Submit(job);
    t := s;
    PathNowhere(entry.capacity, s);
    if !r.SessionFinalizing? {
      SubmissionPath(entry.capacity, s);
      hide Inv;
      if r.Admitted? {
        t := s.(jobs := s.jobs + [Job(false, false, false, false, 0)], guarded := Accepted(s.guarded));
      }
    }
  }

  /** Drain is one step of the machine, and its answer is what the machine has outstanding. */
  method DrainEntry(entry: Entry, ghost s: State) returns (drained: bool)
    requires entry.Valid() && entry.Shows(s) && Inv(entry.capacity, s) && Enabled(entry.capacity, s, Drained)
    modifies entry
    ensures entry.Valid() && entry.Shows(Step(entry.capacity, s, Drained))
    ensures drained <==> Queued(s) == 0 && !Holding(s.worker)
  {
    drained := entry.Drain();
  }

  /** The worker's receive. */
  method TakeFromEntry(entry: Entry, ghost s: State)
    requires entry.Valid() && entry.Shows(s) && Inv(entry.capacity, s) && s.worker.Idle? && s.head < |s.jobs|
    modifies entry
    ensures entry.Valid() && entry.Shows(Step(entry.capacity, s, WorkerStep(true)))
  {
    entry.Take();
  }

  /** The worker arms the operation it is about to run. */
  method ArmEntry(entry: Entry, ghost s: State) returns (ok: bool)
    requires entry.Valid() && entry.Shows(s) && Inv(entry.capacity, s) && s.worker.Arming?
    requires Enabled(entry.capacity, s, WorkerStep(true))
    modifies entry
    ensures entry.Valid() && entry.Shows(Step(entry.capacity, s, WorkerStep(true)))
    ensures Step(entry.capacity, s, WorkerStep(true)).worker.Executing? <==> ok
  {
    ok := entry.SetActive();
  }

  /** The job in the worker's hands has been answered, and its operation's context released if it ran. */
  ghost function FinishedState(s: State): State
    requires Holding(s.worker) && HasJob(s, s.worker.job)
  {
    var job := s.jobs[s.worker.job];
    var answered := job.(cancelled := job.cancelled || s.worker.Executing?, results := job.results + 1);
    s.(jobs := s.jobs[s.worker.job := answered], guarded := Completed(s.guarded.(active := None)), worker := Idle)
  }

  /** Two steps answer the job and complete it; when its operation has just returned, two more come before. */
  lemma FinishPath(capacity: nat, s: State)
    requires Inv(capacity, s) && (s.worker.Executing? || s.worker.Delivering?)
    ensures HasJob(s, s.worker.job)
    ensures Path(capacity, s, seq(if s.worker.Executing? then 4 else 2, _ => WorkerStep(true)), FinishedState(s))
  {
    var pair := [WorkerStep(true), WorkerStep(true)];
    TwoSteps(capacity, s, WorkerStep(true), WorkerStep(true));
    if s.worker.Executing? {
      var j := s.worker.job;
      var delivering := Cancel(s, j).(guarded := s.guarded.(active := None), worker := Delivering(j));
      TwoSteps(capacity, delivering, WorkerStep(true), WorkerStep(true));
      Joined(capacity, s, pair, delivering, pair, FinishedState(s));
      assert pair + pair == seq(4, _ => WorkerStep(true));
    } else {
      assert pair == seq(2, _ => WorkerStep(true));
    }
  }

  method FinishInEntry(entry: Entry, ghost s: State)
    requires entry.Valid() && entry.Shows(s) && Inv(entry.capacity, s)
    requires s.worker.Executing? || s.worker.Delivering?
    modifies entry
    ensures entry.Valid() && HasJob(s, s.worker.job) && entry.Shows(FinishedState(s))
    ensures Path(entry.capacity, s, seq(if s.worker.Executing? then 4 else 2, _ => WorkerStep(true)), FinishedState(s))
  {
    entry.Finish();
    FinishPath(entry.capacity, s);
  }

  /** The six steps of Close, undisturbed: the entry is removed, its channel closed and what runs is cancelled. */
  lemma ClosePath(capacity: nat, s: State)
    requires Inv(capacity, s) && s.close.NotClosing? && Enabled(capacity, s, CloseStep)
    ensures s.guarded.active.Some? ==> HasJob(s, s.guarded.active.value)
    ensures Path(capacity, s, seq(6, _ => CloseStep), ClosedState(s))
  {
    var pair := [CloseStep, CloseStep];
    var marked := s.(guarded := s.guarded.(closed := true), close := Marked);
    var unlocked := marked.(mapped := false, channelClosed := true, close := Unlocked);
    TwoSteps(capacity, s, CloseStep, CloseStep);
    TwoSteps(capacity, marked, CloseStep, CloseStep);
    TwoSteps(capacity, unlocked, CloseStep, CloseStep);
    Joined(capacity, s, pair, marked, pair, unlocked);
    Joined(capacity, s, pair + pair, unlocked, pair, ClosedState(s));
    assert pair + pair + pair == seq(6, _ => CloseStep);
  }

  ghost function ClosedState(s: State): State {
    var closed := s.(guarded := s.guarded.(closed := true), mapped := false, channelClosed := true, close := Returned);
    var active := s.guarded.active;
    if active.Some? && HasJob(s, active.value) then Cancel(closed, active.value) else closed
  }

  method CloseEntry(entry: Entry, ghost s: State) returns (cancel: Option<nat>)
    requires entry.Valid() && entry.Shows(s) && Inv(entry.capacity, s)
    requires s.close.NotClosing? && Enabled(entry.capacity, s, CloseStep)
    modifies entry
    ensures entry.Valid() && entry.Shows(ClosedState(s))
    ensures Path(entry.capacity, s, seq(6, _ => CloseStep), ClosedState(s))
    ensures cancel == if s.worker.Executing? || s.worker.Clearing? then Some(s.worker.job) else None
  {
    cancel := entry.Close();
    ClosePath(entry.capacity, s);
  }
}
