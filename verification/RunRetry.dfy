/** Retries of one Run: runtimed, the stale reaper and the scheduler race on its status. */
module RunRetry {
  import opened Common
  import opened WorkflowStatus

  datatype Reason = Timeout | Cancelled | Other(name: string)

  /** A nil or zero policy gets defaults; empty retryable means every reason. The backoff is in nanoseconds. */
  datatype Policy = Policy(maxAttempts: int, backoff: int, retryable: seq<Reason>)

  const SECOND := 1_000_000_000

  const INT32_MAX := 0x7fff_ffff

  /** A 32-bit signed result, with wrap-around. */
  function Int32(x: int): int {
    (x + 0x8000_0000) % 0x1_0000_0000 - 0x8000_0000
  }

  function WithDefaults(p: Option<Policy>): (r: Policy)
    ensures r.maxAttempts >= 1 && r.backoff > 0
    ensures p.None? || p.value.maxAttempts < 1 ==> r.maxAttempts == 1
    ensures p.None? || p.value.backoff <= 0 ==> r.backoff == SECOND
    ensures p.None? ==> WithDefaults(Some(Policy(0, 0, []))) == r
    ensures p.Some? ==> r.retryable == p.value.retryable
    ensures p.Some? && p.value.maxAttempts >= 1 && p.value.backoff > 0 ==> r == p.value
    decreases p.None?
  {
    if p.None? then Policy(1, SECOND, [])
    else
      Policy(if p.value.maxAttempts <= 0 then 1 else p.value.maxAttempts,
             if p.value.backoff <= 0 then SECOND else p.value.backoff,
             p.value.retryable)
  }

  predicate ShouldRetry(p: Policy, attempt: int, reason: Reason) {
    attempt < p.maxAttempts && !reason.Cancelled? && (p.retryable == [] || reason in p.retryable)
  }

  function CurrentAttempt(attempt: int): int {
    if attempt == 0 then 1 else attempt
  }

  function NextAttempt(attempt: int): int {
    Int32(CurrentAttempt(attempt) + 1)
  }

  /** waiting: the Running condition is false until a backoff ends. */
  datatype Status = Status(phase: RunPhase, attempt: int, pod: string, waiting: bool)

  predicate Monitored(phase: RunPhase) {
    phase.RunRunning? || phase.RunReady? || phase.RunFinalizing?
  }

  function TerminalPhaseForFailure(reason: Reason): RunPhase {
    if reason.Timeout? then RunTimeout else RunFailed
  }

  function Ended(s: Status, phase: RunPhase): Status {
    s.(phase := phase, attempt := CurrentAttempt(s.attempt), waiting := true)
  }

  /** What runtimed makes of a failed attempt. */
  function FailedAttempt(p: Policy, s: Status, reason: Reason): Status {
    if ShouldRetry(p, CurrentAttempt(s.attempt), reason)
    then s.(attempt := Int32(CurrentAttempt(s.attempt) + 1), waiting := true)
    else Ended(s, TerminalPhaseForFailure(reason))
  }

  /** What the reaper makes of a Run whose Pod is gone or unhealthy. */
  function Reaped(p: Policy, s: Status, reason: Reason): Status {
    if ShouldRetry(p, CurrentAttempt(s.attempt), reason)
    then Status(RunPending, NextAttempt(s.attempt), "", true)
    else Ended(s, RunFailed)
  }

  /** The copy of the Run one reconcile works on. */
  class RunCopy {
    var phase: RunPhase
    var attempt: int
    var pod: string
    var waiting: bool

    ghost function State(): Status
      reads this
    {
      Status(phase, attempt, pod, waiting)
    }

    method ApplyFailure(policy: Option<Policy>, reason: Reason)
      modifies this
      ensures State() == FailedAttempt(WithDefaults(policy), old(State()), reason)
    {
      var p := WithDefaults(policy);
      var current := CurrentAttempt(attempt);
      if !ShouldRetry(p, current, reason) {
        ApplyTerminal(TerminalPhaseForFailure(reason));
        return;
      }
      attempt := Int32(current + 1);
      waiting := true;
    }

    method ApplyTerminal(to: RunPhase)
      modifies this
      ensures State() == Ended(old(State()), to)
    {
      if attempt == 0 {
        attempt := 1;
      }
      phase := to;
      waiting := true;
    }

    method HandleStaleRun(policy: Option<Policy>, reason: Reason)
      modifies this
      ensures State() == Reaped(WithDefaults(policy), old(State()), reason)
    {
      var p := WithDefaults(policy);
      var current := CurrentAttempt(attempt);
      if ShouldRetry(p, current, reason) {
        attempt := NextAttempt(attempt);
        phase := RunPending;
        pod := "";
        waiting := true;
      } else {
        attempt := current;
        phase := RunFailed;
        waiting := true;
      }
    }
  }

  // ---- every interleaving of the writers ------------------------------------

  datatype Write =
    | Bind(target: string)
    | Claim
    | MarkReady
    | Finalize
    | EndBackoff
    | Fail(reason: Reason)
    | Reap(reason: Reason)
    | End(phase: RunPhase)
    | Refuse(phase: RunPhase)

  /** What a writer does with the version it read; not every phase allows every write. */
  ghost predicate Allowed(s: Status, w: Write) {
    match w
    case Bind(target) => s.phase.RunPending? && s.pod == "" && target != ""
    case Claim => s.phase.RunScheduled?
    case MarkReady => s.phase.RunRunning?
    case Finalize => s.phase.RunReady?
    case EndBackoff => s.phase.RunRunning? && s.waiting
    case Fail(_) => s.phase.RunScheduled? || Monitored(s.phase)
    case Reap(_) => Monitored(s.phase) && s.pod != ""
    case End(phase) => (s.phase.RunScheduled? || Monitored(s.phase)) && phase.Terminal()
    case Refuse(phase) => s.phase.RunPending? && (phase.RunFailed? || phase.RunCancelled?)
  }

  ghost function Written(p: Policy, s: Status, w: Write): Status {
    match w
    case Bind(target) => s.(phase := RunScheduled, pod := target)
    case Claim => s.(phase := RunRunning, waiting := false)
    case MarkReady => s.(phase := RunReady)
    case Finalize => s.(phase := RunFinalizing)
    case EndBackoff => s.(waiting := false)
    case Fail(reason) => FailedAttempt(p, s, reason)
    case Reap(reason) => Reaped(p, s, reason)
    case End(phase) => Ended(s, phase)
    case Refuse(phase) => s.(phase := phase, waiting := true)
  }

  /** One attempt to update the status from a possibly old version. */
  datatype Try = Try(version: nat, write: Write)

  /** The stored versions, and the write that produced each one after the first. */
  datatype History = History(versions: seq<Status>, writes: seq<Write>)

  ghost predicate Enabled(h: History, t: Try) {
    t.version < |h.versions| && Allowed(h.versions[t.version], t.write)
  }

  /** Optimistic concurrency: only a write from the latest version is stored. */
  ghost function Step(p: Policy, h: History, t: Try): History
    requires Enabled(h, t)
  {
    if t.version == |h.versions| - 1 then
      History(h.versions + [Written(p, h.versions[t.version], t.write)], h.writes + [t.write])
    else h
  }

  ghost predicate Behaviour(p: Policy, hs: seq<History>, ts: seq<Try>) {
    && |hs| == |ts| + 1 && hs[0] == History([Status(RunPending, 0, "", false)], [])
    && forall i :: 0 <= i < |ts| ==> Enabled(hs[i], ts[i]) && hs[i + 1] == Step(p, hs[i], ts[i])
  }

  // ---- the invariant --------------------------------------------------------

  /** The write gave the Run another attempt. */
  ghost predicate Retries(p: Policy, s: Status, w: Write) {
    (w.Fail? || w.Reap?) && ShouldRetry(p, CurrentAttempt(s.attempt), w.reason)
  }

  ghost function RetryCount(p: Policy, h: History): nat
    requires |h.versions| == |h.writes| + 1
    decreases |h.writes|
  {
    if h.writes == [] then 0
    else
      var n := |h.writes| - 1;
      RetryCount(p, History(h.versions[..n + 1], h.writes[..n]))
      + if Retries(p, h.versions[n], h.writes[n]) then 1 else 0
  }

  ghost predicate Linked(p: Policy, h: History) {
    && |h.versions| == |h.writes| + 1
    && forall i :: 0 <= i < |h.writes| ==>
         Allowed(h.versions[i], h.writes[i]) && h.versions[i + 1] == Written(p, h.versions[i], h.writes[i])
  }

  ghost predicate Inv(p: Policy, h: History) {
    && Linked(p, h) && h.versions[0] == Status(RunPending, 0, "", false)
    && (forall i :: 0 <= i < |h.versions| ==> 0 <= h.versions[i].attempt <= p.maxAttempts)
    && CurrentAttempt(h.versions[|h.versions| - 1].attempt) == 1 + RetryCount(p, h)
  }

  /** A write never lowers the attempt, and raises the current one exactly when it retries, by one. */
  lemma WriteSteps(p: Policy, s: Status, w: Write)
    requires 1 <= p.maxAttempts <= INT32_MAX && 0 <= s.attempt <= p.maxAttempts && Allowed(s, w)
    ensures var t := Written(p, s, w);
            && s.attempt <= t.attempt <= p.maxAttempts
            && CurrentAttempt(t.attempt) == CurrentAttempt(s.attempt) + (if Retries(p, s, w) then 1 else 0)
  {
    hide Int32;
    if Retries(p, s, w) {
      InRange(CurrentAttempt(s.attempt) + 1);
    }
  }

  lemma InRange(x: int)
    requires 0 <= x <= INT32_MAX
    ensures Int32(x) == x
  {
  }

  lemma StepKeepsInv(p: Policy, h: History, t: Try)
    requires 1 <= p.maxAttempts <= INT32_MAX && Inv(p, h) && Enabled(h, t)
    ensures Inv(p, Step(p, h, t))
  {
    hide Int32, FailedAttempt, Reaped, Ended, ShouldRetry;
    if t.version == |h.versions| - 1 {
      var r := Step(p, h, t);
      var n := |h.writes|;
      WriteSteps(p, h.versions[n], t.write);
      assert r.versions[..n + 1] == h.versions && r.writes[..n] == h.writes;
    }
  }

  lemma {:induction false} BehaviourKeepsInv(p: Policy, hs: seq<History>, ts: seq<Try>, n: nat)
    requires 1 <= p.maxAttempts <= INT32_MAX && Behaviour(p, hs, ts) && n < |hs|
    ensures Inv(p, hs[n])
  {
    if n > 0 {
      BehaviourKeepsInv(p, hs, ts, n - 1);
      assert Enabled(hs[n - 1], ts[n - 1]) && hs[n - 1 + 1] == Step(p, hs[n - 1], ts[n - 1]);
      StepKeepsInv(p, hs[n - 1], ts[n - 1]);
    }
  }

  // ---- the theorems ---------------------------------------------------------

  /** The attempt never decreases, stays within the policy, and never wraps. */
  lemma {:induction false} AttemptIsMonotone(p: Policy, hs: seq<History>, ts: seq<Try>, n: nat, i: nat, j: nat)
    requires 1 <= p.maxAttempts <= INT32_MAX && Behaviour(p, hs, ts) && n < |hs| && i <= j < |hs[n].versions|
    ensures hs[n].versions[i].attempt <= hs[n].versions[j].attempt <= p.maxAttempts
    decreases j
  {
    BehaviourKeepsInv(p, hs, ts, n);
    if i < j {
      AttemptIsMonotone(p, hs, ts, n, i, j - 1);
      assert Allowed(hs[n].versions[j - 1], hs[n].writes[j - 1])
          && hs[n].versions[j - 1 + 1] == Written(p, hs[n].versions[j - 1], hs[n].writes[j - 1]);
      WriteSteps(p, hs[n].versions[j - 1], hs[n].writes[j - 1]);
    }
  }

  /** Conservation: the current attempt is one plus the retries, so there are fewer retries than attempts allowed. */
  lemma RetriesAreCounted(p: Policy, hs: seq<History>, ts: seq<Try>, n: nat)
    requires 1 <= p.maxAttempts <= INT32_MAX && Behaviour(p, hs, ts) && n < |hs|
    ensures |hs[n].versions| == |hs[n].writes| + 1
    ensures RetryCount(p, hs[n]) + 1 == CurrentAttempt(hs[n].versions[|hs[n].versions| - 1].attempt) <= p.maxAttempts
  {
    BehaviourKeepsInv(p, hs, ts, n);
  }

  /** Terminal versions are the last, whatever stale writers still try; a cancelled failure is always terminal. */
  lemma TerminalIsLast(p: Policy, hs: seq<History>, ts: seq<Try>, n: nat, i: nat)
    requires 1 <= p.maxAttempts <= INT32_MAX && Behaviour(p, hs, ts) && n < |hs| && i < |hs[n].versions|
    ensures hs[n].versions[i].phase.Terminal() ==> i == |hs[n].versions| - 1
    ensures i > 0 && |hs[n].writes| == |hs[n].versions| - 1 && hs[n].writes[i - 1] == Fail(Cancelled) ==>
              hs[n].versions[i].phase == RunFailed
  {
    BehaviourKeepsInv(p, hs, ts, n);
    if i < |hs[n].versions| - 1 {
      assert Allowed(hs[n].versions[i], hs[n].writes[i]);
    }
    if i > 0 {
      assert hs[n].versions[i - 1 + 1] == Written(p, hs[n].versions[i - 1], hs[n].writes[i - 1]);
    }
  }

  /** What is left of the policy for a failure in this attempt: none, or one more. */
  ghost predicate Exhausted(p: Policy, attempt: int, reason: Reason) {
    reason.Cancelled? || (p.retryable != [] && reason !in p.retryable) || p.maxAttempts <= attempt
  }

  /**
    * An applied failure or reaping ends the Run exactly when it was cancelled, its reason is not to be
    * retried or its attempts are used up, with the phase the reason calls for; otherwise the next attempt
    * begins, in place after a failure and from the start, without a Pod, after a reaping.
    */
  lemma FailureEndsIff(p: Policy, hs: seq<History>, ts: seq<Try>, n: nat, i: nat)
    requires 1 <= p.maxAttempts <= INT32_MAX && Behaviour(p, hs, ts) && n < |hs| && i < |hs[n].writes|
    requires hs[n].writes[i].Fail? || hs[n].writes[i].Reap?
    ensures |hs[n].versions| == |hs[n].writes| + 1
    ensures var s, w, t := hs[n].versions[i], hs[n].writes[i], hs[n].versions[i + 1];
            var attempt := if s.attempt == 0 then 1 else s.attempt;
            if Exhausted(p, attempt, w.reason)
            then t == Status(if w.Fail? && w.reason.Timeout? then RunTimeout else RunFailed, attempt, s.pod, true)
            else if w.Fail? then t == Status(s.phase, attempt + 1, s.pod, true) && !t.phase.Terminal()
            else t == Status(RunPending, attempt + 1, "", true)
  {
    BehaviourKeepsInv(p, hs, ts, n);
    var s, w := hs[n].versions[i], hs[n].writes[i];
    assert Allowed(s, w) && hs[n].versions[i + 1] == Written(p, s, w);
    hide Int32;
    if CurrentAttempt(s.attempt) < p.maxAttempts {
      InRange(CurrentAttempt(s.attempt) + 1);
    }
  }

  /** No attempt is given away: a failure that may be retried ends the Run in its last attempt only. */
  lemma EveryAttemptIsUsed(p: Policy, hs: seq<History>, ts: seq<Try>, n: nat, i: nat)
    requires 1 <= p.maxAttempts <= INT32_MAX && Behaviour(p, hs, ts) && n < |hs| && i < |hs[n].writes|
    requires hs[n].writes[i].Fail? || hs[n].writes[i].Reap?
    requires var reason := hs[n].writes[i].reason; reason != Cancelled && (p.retryable == [] || reason in p.retryable)
    ensures |hs[n].versions| == |hs[n].writes| + 1
    ensures hs[n].versions[i + 1].phase.Terminal() ==> hs[n].versions[i + 1].attempt == p.maxAttempts
  {
    FailureEndsIff(p, hs, ts, n, i);
    AttemptIsMonotone(p, hs, ts, n, i + 1, i + 1);
  }

  /** Every applied failure or reaping either ends the Run or uses up one of its remaining attempts. */
  lemma FailureUsesAnAttempt(p: Policy, hs: seq<History>, ts: seq<Try>, n: nat, i: nat)
    requires 1 <= p.maxAttempts <= INT32_MAX && Behaviour(p, hs, ts) && n < |hs| && i < |hs[n].writes|
    requires hs[n].writes[i].Fail? || hs[n].writes[i].Reap?
    ensures |hs[n].versions| == |hs[n].writes| + 1
    ensures var s, w, t := hs[n].versions[i], hs[n].writes[i], hs[n].versions[i + 1];
            || (t.phase.Terminal() && i == |hs[n].writes| - 1
                && t.phase == if w.Fail? && w.reason.Timeout? then RunTimeout else RunFailed)
            || (!t.phase.Terminal() && !w.reason.Cancelled?
                && p.maxAttempts - t.attempt == p.maxAttempts - CurrentAttempt(s.attempt) - 1 >= 0)
  {
    BehaviourKeepsInv(p, hs, ts, n);
    TerminalIsLast(p, hs, ts, n, i + 1);
    var s, w := hs[n].versions[i], hs[n].writes[i];
    assert Allowed(s, w) && hs[n].versions[i + 1] == Written(p, s, w);
    WriteSteps(p, s, w);
  }
}
