/** Which of the submitted operations the worker of a queue entry executes. */
module SessionWork {
  import opened SessionQueue

  ghost predicate PastAdmission(w: Worker) {
    w.Rechecking? || w.ContextCheck? || w.Arming?
  }

  ghost predicate PastDecision(w: Worker) {
    w.Executing? || w.Clearing? || w.Delivering? || w.Completing?
  }

  /** The caller is gone or the entry is closed. */
  ghost predicate Unwanted(s: State, k: nat)
    requires HasJob(s, k)
  {
    s.guarded.closed || s.jobs[k].ended
  }

  /** Past its admission a job is admitted; past the decision about it, it was started or is unwanted. */
  ghost predicate Decided(s: State, k: nat) {
    HasJob(s, k) ==>
      && (k in s.started || (PastAdmission(s.worker) && s.worker.job == k) ==> s.jobs[k].admitted)
      && (s.jobs[k].results > 0 || (PastDecision(s.worker) && s.worker.job == k) ==> k in s.started || Unwanted(s, k))
  }

  lemma NewJobIsUntouched(capacity: nat, s: State)
    requires Inv(capacity, s)
    ensures |s.jobs| !in s.started && (Holding(s.worker) ==> s.worker.job < |s.jobs|)
  {
    hide ActiveOk, ResultsOk, FreshOk, CloseOk;
  }

  lemma WorkerDecides(capacity: nat, s: State, admitted: bool, k: nat)
    requires Enabled(capacity, s, WorkerStep(admitted)) && Decided(s, k)
    ensures Decided(Step(capacity, s, WorkerStep(admitted)), k)
  {
  }

  lemma StepDecides(capacity: nat, s: State, e: Event, k: nat)
    requires Inv(capacity, s) && Enabled(capacity, s, e) && Decided(s, k)
    ensures Decided(Step(capacity, s, e), k)
  {
    NewJobIsUntouched(capacity, s);
    hide Inv;
    if e.WorkerStep? {
      hide Decided;
      WorkerDecides(capacity, s, e.admitted, k);
    }
  }

  lemma {:induction false} AllDecided(capacity: nat, ss: seq<State>, es: seq<Event>, n: nat, k: nat)
    requires Behaviour(capacity, ss, es) && n < |ss|
    ensures Decided(ss[n], k)
  {
    hide *;
    if n == 0 {
      NothingToDecide(capacity, ss, es, k);
    } else {
      AllDecided(capacity, ss, es, n - 1, k);
      BehaviourKeepsInv(capacity, ss, es, n - 1);
      StepOf(capacity, ss, es, n - 1);
      StepDecides(capacity, ss[n - 1], es[n - 1], k);
    }
  }

  lemma NothingToDecide(capacity: nat, ss: seq<State>, es: seq<Event>, k: nat)
    requires Behaviour(capacity, ss, es)
    ensures Decided(ss[0], k)
  {
  }

  /** No operation is executed before its admission has been recorded. */
  lemma StartedIsAdmitted(capacity: nat, ss: seq<State>, es: seq<Event>, n: nat, k: nat)
    requires Behaviour(capacity, ss, es) && n < |ss| && HasJob(ss[n], k) && k in ss[n].started
    ensures ss[n].jobs[k].admitted
  {
    AllDecided(capacity, ss, es, n, k);
  }

  /** An operation is answered without being executed only when its caller is gone or the entry is closed. */
  lemma AnsweredIsExecuted(capacity: nat, ss: seq<State>, es: seq<Event>, n: nat, k: nat)
    requires Behaviour(capacity, ss, es) && n < |ss| && HasJob(ss[n], k) && ss[n].jobs[k].results > 0
    ensures k in ss[n].started || ss[n].guarded.closed || ss[n].jobs[k].ended
  {
    AllDecided(capacity, ss, es, n, k);
  }

  /** The caller is gone, and the worker has not looked for it for the last time. */
  ghost predicate GoneInTime(s: State, k: nat) {
    HasJob(s, k) && s.jobs[k].ended && k !in s.started && s.worker != Arming(k)
  }

  lemma GoneStays(capacity: nat, s: State, e: Event, k: nat)
    requires Enabled(capacity, s, e) && GoneInTime(s, k)
    ensures GoneInTime(Step(capacity, s, e), k)
  {
  }

  /** An operation whose caller leaves before the worker last looks for it is never executed. */
  lemma {:induction false} GoneIsNotStarted(capacity: nat, ss: seq<State>, es: seq<Event>, i: nat, j: nat, k: nat)
    requires Behaviour(capacity, ss, es) && i <= j < |ss| && GoneInTime(ss[i], k)
    ensures k !in ss[j].started
  {
    GoneRemains(capacity, ss, es, i, j, k);
  }

  lemma {:induction false} GoneRemains(capacity: nat, ss: seq<State>, es: seq<Event>, i: nat, j: nat, k: nat)
    requires Behaviour(capacity, ss, es) && i <= j < |ss| && GoneInTime(ss[i], k)
    ensures GoneInTime(ss[j], k)
  {
    hide *;
    if i < j {
      GoneRemains(capacity, ss, es, i, j - 1, k);
      StepOf(capacity, ss, es, j - 1);
      GoneStays(capacity, ss[j - 1], es[j - 1], k);
    }
  }
}
