/** Skipping the jobs that can no longer start, to a fixed point. */
module SkipPropagation {
  import opened Common
  import opened WorkflowStatus

  predicate HasFailedOrSkippedDependency(status: JobStatus, jobs: JobStatuses) {
    exists i | 0 <= i < |status.pre| :: status.pre[i] in jobs && jobs[status.pre[i]].phase.Blocking()
  }

  /** A chain of predecessors through unstarted jobs that ends in a failed or skipped job. */
  ghost predicate BlockingPath(jobs: JobStatuses, p: seq<string>) {
    && |p| >= 2
    && (forall i :: 0 <= i < |p| ==> p[i] in jobs)
    && (forall i :: 0 <= i < |p| - 1 ==> jobs[p[i]].phase.Unstarted() && p[i + 1] in jobs[p[i]].pre)
    && jobs[p[|p| - 1]].phase.Blocking()
  }

  ghost predicate Blocked(jobs: JobStatuses, name: string) {
    exists p :: BlockingPath(jobs, p) && p[0] == name
  }

  /** Every blocked job skipped, everything else unchanged. */
  ghost function Skipped(jobs: JobStatuses): JobStatuses {
    map name | name in jobs :: if Blocked(jobs, name) then jobs[name].(phase := JobSkipped) else jobs[name]
  }

  /** One job at a time: blocked means unstarted with a predecessor that blocks or is blocked. */
  lemma BlockedStep(jobs: JobStatuses, name: string)
    requires name in jobs
    ensures Blocked(jobs, name) <==>
            && jobs[name].phase.Unstarted()
            && exists d :: d in jobs[name].pre && d in jobs && (jobs[d].phase.Blocking() || Blocked(jobs, d))
  {
    if Blocked(jobs, name) {
      var p :| BlockingPath(jobs, p) && p[0] == name;
      assert p[1] in jobs[p[0]].pre;
      if |p| > 2 {
        var rest := p[1..];
        assert forall i :: 0 <= i < |rest| ==> rest[i] == p[i + 1];
        assert BlockingPath(jobs, rest);
      }
    } else if jobs[name].phase.Unstarted() {
      forall d | d in jobs[name].pre && d in jobs ensures !jobs[d].phase.Blocking() && !Blocked(jobs, d) {
        if jobs[d].phase.Blocking() {
          assert BlockingPath(jobs, [name, d]);
        } else if Blocked(jobs, d) {
          var p :| BlockingPath(jobs, p) && p[0] == d;
          Prepend(jobs, name, p);
        }
      }
    }
  }

  lemma Prepend(jobs: JobStatuses, name: string, p: seq<string>)
    requires name in jobs && jobs[name].phase.Unstarted() && BlockingPath(jobs, p) && p[0] in jobs[name].pre
    ensures Blocked(jobs, name)
  {
    var longer := [name] + p;
    assert forall i :: 1 <= i < |longer| ==> longer[i] == p[i - 1];
    assert BlockingPath(jobs, longer);
  }

  /** r is jobs with some blocked jobs already skipped. */
  ghost predicate Sound(jobs: JobStatuses, r: JobStatuses) {
    && r.Keys == jobs.Keys
    && forall name :: name in jobs ==>
         r[name] == jobs[name] || (Blocked(jobs, name) && r[name] == jobs[name].(phase := JobSkipped))
  }

  ghost predicate Settled(r: JobStatuses, name: string)
    requires name in r
  {
    r[name].phase.Unstarted() ==> !HasFailedOrSkippedDependency(r[name], r)
  }

  ghost function NewlySkipped(jobs: JobStatuses, r: JobStatuses): set<string>
    requires r.Keys == jobs.Keys
  {
    set name | name in jobs && jobs[name].phase.Unstarted() && r[name].phase.JobSkipped?
  }

  lemma SkipOne(jobs: JobStatuses, r: JobStatuses, name: string)
    requires Sound(jobs, r) && name in jobs
    requires r[name].phase.Unstarted() && HasFailedOrSkippedDependency(r[name], r)
    ensures Sound(jobs, r[name := r[name].(phase := JobSkipped)])
    ensures NewlySkipped(jobs, r[name := r[name].(phase := JobSkipped)]) == NewlySkipped(jobs, r) + {name}
    ensures name !in NewlySkipped(jobs, r)
  {
    SkipOneSound(jobs, r, name);
    hide Blocked;
  }

  lemma SkipOneSound(jobs: JobStatuses, r: JobStatuses, name: string)
    requires Sound(jobs, r) && name in jobs
    requires r[name].phase.Unstarted() && HasFailedOrSkippedDependency(r[name], r)
    ensures Sound(jobs, r[name := r[name].(phase := JobSkipped)])
  {
    var i :| 0 <= i < |r[name].pre| && r[name].pre[i] in r && r[r[name].pre[i]].phase.Blocking();
    var d := r[name].pre[i];
    assert jobs[d].phase.Blocking() || Blocked(jobs, d);
    BlockedStep(jobs, name);
  }

  /** Once every job is settled nothing blocked is left over. */
  lemma {:induction false} PathSkipped(jobs: JobStatuses, r: JobStatuses, p: seq<string>, n: nat)
    requires Sound(jobs, r) && (forall name :: name in r ==> Settled(r, name))
    requires BlockingPath(jobs, p) && n < |p|
    ensures r[p[n]].phase.Blocking()
    decreases |p| - n
  {
    if n < |p| - 1 {
      PathSkipped(jobs, r, p, n + 1);
      assert p[n + 1] in r[p[n]].pre;
      var i :| 0 <= i < |r[p[n]].pre| && r[p[n]].pre[i] == p[n + 1];
      assert HasFailedOrSkippedDependency(r[p[n]], r);
      assert Settled(r, p[n]);
    } else {
      NotUnstartedWhenBlocking(jobs, p[n]);
    }
  }

  lemma NotUnstartedWhenBlocking(jobs: JobStatuses, name: string)
    requires name in jobs && jobs[name].phase.Blocking()
    ensures !Blocked(jobs, name)
  {
    BlockedStep(jobs, name);
  }

  lemma SettledIsSkipped(jobs: JobStatuses, r: JobStatuses)
    requires Sound(jobs, r) && forall name :: name in r ==> Settled(r, name)
    ensures r == Skipped(jobs)
  {
    forall name | name in jobs && Blocked(jobs, name) ensures r[name] == jobs[name].(phase := JobSkipped) {
      var p :| BlockingPath(jobs, p) && p[0] == name;
      PathSkipped(jobs, r, p, 0);
    }
  }

  /**
    * The bounded rounds compute exactly Skipped, whatever order the jobs are visited in:
    * as many rounds as there are jobs always suffice.
    */
  method DeriveSkippedJobStatuses(jobs: JobStatuses) returns (r: JobStatuses)
    ensures r == Skipped(jobs)
  {
    var names := Enumerate(jobs.Keys);
    r := jobs;
    hide Settled, NewlySkipped, Skipped;
    for rounds := 0 to |names|
      invariant Sound(jobs, r)
      invariant |NewlySkipped(jobs, r)| >= rounds
    {
      var changed;
      r, changed := SkipRound(jobs, names, r, rounds);
      if !changed {
        SettledIsSkipped(jobs, r);
        return;
      }
    }
    AllSkipped(jobs, r, names);
    SettledIsSkipped(jobs, r);
  }

  /** One visit of every job; when it changes nothing, every job is settled. */
  method SkipRound(
      ghost jobs: JobStatuses, names: seq<string>, start: JobStatuses, ghost rounds: nat)
      returns (r: JobStatuses, changed: bool)
    requires Sound(jobs, start) && Enumerates(names, start.Keys) && |NewlySkipped(jobs, start)| >= rounds
    ensures Sound(jobs, r) && |NewlySkipped(jobs, r)| >= rounds + if changed then 1 else 0
    ensures !changed ==> forall name :: name in r ==> Settled(r, name)
  {
    hide NewlySkipped;
    r, changed := start, false;
    for i := 0 to |names|
      invariant Sound(jobs, r)
      invariant !changed ==> r == start
      invariant |NewlySkipped(jobs, r)| >= rounds + if changed then 1 else 0
      invariant !changed ==> forall k :: 0 <= k < i ==> Settled(r, names[k])
    {
      var name := names[i];
      assert name in start;
      if r[name].phase.Unstarted() && HasFailedOrSkippedDependency(r[name], r) {
        SkipOne(jobs, r, name);
        r := r[name := r[name].(phase := JobSkipped)];
        changed := true;
      }
    }
    assert !changed ==> forall name :: name in r ==> name in names;
  }

  lemma AllSkipped(jobs: JobStatuses, r: JobStatuses, names: seq<string>)
    requires Sound(jobs, r) && Enumerates(names, jobs.Keys) && |NewlySkipped(jobs, r)| >= |names|
    ensures forall name :: name in r ==> Settled(r, name)
  {
    var newly := NewlySkipped(jobs, r);
    forall name | name in r ensures name in newly {
      if name !in newly {
        var i :| 0 <= i < |names| && names[i] == name;
        EnumerationSize(names, jobs.Keys);
        Subset(newly, jobs.Keys - {name});
      }
    }
  }

  lemma Subset<T>(a: set<T>, b: set<T>)
    requires a <= b
    ensures |a| <= |b|
  {
    if a != {} {
      var x :| x in a;
      Subset(a - {x}, b - {x});
    }
  }

  lemma EnumerationSize<T(!new)>(s: seq<T>, xs: set<T>)
    requires Enumerates(s, xs)
    ensures |s| == |xs|
  {
    if s == [] {
      assert xs == {};
    } else {
      var init, last := s[..|s| - 1], s[|s| - 1];
      assert forall x :: x in s <==> x in init || x == last;
      EnumerationSize(init, xs - {last});
    }
  }

  /** Skipping again changes nothing. */
  lemma SkippedIdempotent(jobs: JobStatuses)
    ensures Skipped(Skipped(jobs)) == Skipped(jobs)
  {
    var r := Skipped(jobs);
    forall name | name in r ensures !Blocked(r, name) {
      SkippedNotBlocked(jobs, name);
    }
  }

  lemma SkippedNotBlocked(jobs: JobStatuses, name: string)
    requires name in jobs
    ensures !Blocked(Skipped(jobs), name)
  {
    var r := Skipped(jobs);
    if Blocked(r, name) {
      var p :| BlockingPath(r, p) && p[0] == name;
      var last, before := p[|p| - 1], p[|p| - 2];
      assert last in r[before].pre;
      BlockedStep(jobs, before);
    }
  }
}
