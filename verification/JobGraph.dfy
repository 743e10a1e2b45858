/** The job dependency graph of a WorkflowRun and its three-colour validation. */
module JobGraph {
  import opened Common

  /** Each job name with the names it needs. */
  type Needs = map<string, seq<string>>

  ghost predicate Edge(g: Needs, job: string, dependency: string) {
    job in g && dependency in g[job]
  }

  ghost predicate IsPath(g: Needs, p: seq<string>) {
    |p| >= 1 && forall i :: 0 <= i < |p| - 1 ==> Edge(g, p[i], p[i + 1])
  }

  ghost predicate IsCycle(g: Needs, p: seq<string>) {
    |p| >= 2 && IsPath(g, p) && p[0] == p[|p| - 1]
  }

  ghost predicate AllKnown(g: Needs) {
    forall job, dependency :: Edge(g, job, dependency) ==> dependency in g
  }

  ghost predicate Acyclic(g: Needs) {
    forall p :: !IsCycle(g, p)
  }

  /** Every job once, each after all the jobs it needs. */
  ghost predicate Topological(g: Needs, order: seq<string>) {
    Enumerates(order, g.Keys) && NeedsEarlier(g, order)
  }

  ghost predicate NeedsEarlier(g: Needs, order: seq<string>) {
    forall i, d :: 0 <= i < |order| && Edge(g, order[i], d) ==> d in order[..i]
  }

  // ---- order and acyclicity -------------------------------------------------

  lemma {:induction false} TopologicalIsAcyclic(g: Needs, order: seq<string>)
    requires Topological(g, order)
    ensures AllKnown(g) && Acyclic(g)
  {
    forall job, d | Edge(g, job, d) ensures d in g {
      var i :| 0 <= i < |order| && order[i] == job;
      assert d in order[..i];
    }
    forall p | IsCycle(g, p) ensures false {
      assert Edge(g, p[0], p[1]);
      assert p[0] in order;
      var i :| 0 <= i < |order| && order[i] == p[0];
      PathDescends(g, order, p, i, |p| - 1);
    }
  }

  /** Along needs edges the position in a topological order strictly falls. */
  lemma {:induction false} PathDescends(g: Needs, order: seq<string>, p: seq<string>, i: nat, n: nat)
    requires Topological(g, order) && IsPath(g, p)
    requires i < |order| && order[i] == p[0] && n < |p|
    ensures exists k :: 0 <= k <= i && order[k] == p[n] && (n > 0 ==> k < i)
  {
    if n > 0 {
      PathDescends(g, order, p, i, n - 1);
      var k :| 0 <= k <= i && order[k] == p[n - 1];
      assert Edge(g, order[k], p[n]);
      assert p[n] in order[..k];
      var m :| 0 <= m < k && order[m] == p[n];
    }
  }

  /** Following one more edge back onto a path closes a cycle. */
  lemma ClosesCycle(g: Needs, p: seq<string>, i: nat)
    requires i < |p| && IsPath(g, p) && Edge(g, p[|p| - 1], p[i])
    ensures IsCycle(g, p[i..] + [p[i]])
  {
    var c := p[i..] + [p[i]];
    forall k | 0 <= k < |c| - 1 ensures Edge(g, c[k], c[k + 1]) {
      assert c[k] == p[i + k];
      if k + 1 < |c| - 1 {
        assert c[k + 1] == p[i + k + 1];
      }
    }
  }

  lemma AppendPath(g: Needs, p: seq<string>, y: string)
    requires p != [] ==> IsPath(g, p) && Edge(g, p[|p| - 1], y)
    ensures IsPath(g, p + [y])
  {
  }

  ghost predicate Waits(g: Needs, stuck: set<string>, job: string) {
    exists d :: d in stuck && Edge(g, job, d)
  }

  /** A finite set in which every job waits for another job of the set holds a cycle. */
  lemma {:induction false} EverybodyWaits(g: Needs, stuck: set<string>, p: seq<string>) returns (cycle: seq<string>)
    requires forall x :: x in stuck ==> Waits(g, stuck, x)
    requires IsPath(g, p) && Distinct(p) && forall i :: 0 <= i < |p| ==> p[i] in stuck
    ensures IsCycle(g, cycle)
    decreases |stuck| - |p|
  {
    var last := p[|p| - 1];
    assert Waits(g, stuck, last);
    var y :| y in stuck && Edge(g, last, y);
    if y in p {
      var i :| 0 <= i < |p| && p[i] == y;
      ClosesCycle(g, p, i);
      cycle := p[i..] + [p[i]];
    } else {
      AppendDistinct(p, y);
      AppendPath(g, p, y);
      DistinctLength(p + [y], stuck);
      cycle := EverybodyWaits(g, stuck, p + [y]);
    }
  }

  /** In an acyclic graph some job of any nonempty set waits for no other job of the set. */
  lemma MinimalJob(g: Needs, outside: set<string>) returns (job: string)
    requires Acyclic(g) && outside != {}
    ensures job in outside && !Waits(g, outside, job)
  {
    job :| job in outside;
    if forall x :: x in outside ==> Waits(g, outside, x) {
      var cycle := EverybodyWaits(g, outside, [job]);
      assert false;
    } else {
      job :| job in outside && !Waits(g, outside, job);
    }
  }

  lemma AppendOrdered(g: Needs, order: seq<string>, job: string)
    requires NeedsEarlier(g, order)
    requires forall d :: Edge(g, job, d) ==> d in order
    ensures NeedsEarlier(g, order + [job])
  {
    var longer := order + [job];
    forall i, d | 0 <= i < |longer| && Edge(g, longer[i], d) ensures d in longer[..i] {
      if i < |order| {
        assert longer[..i] == order[..i];
      } else {
        assert longer[..i] == order;
      }
    }
  }

  lemma ExtendOrder(g: Needs, prefix: seq<string>) returns (order: seq<string>)
    requires AllKnown(g) && Acyclic(g)
    requires Distinct(prefix) && NeedsEarlier(g, prefix)
    requires forall x :: x in prefix ==> x in g
    ensures Topological(g, order)
    decreases |g.Keys| - |prefix|
  {
    var outside := set x | x in g && x !in prefix;
    if outside == {} {
      assert forall x :: x in g ==> x in prefix || x in outside;
      order := prefix;
    } else {
      var job := MinimalJob(g, outside);
      AppendOrdered(g, prefix, job);
      DistinctLength(prefix + [job], g.Keys);
      order := ExtendOrder(g, prefix + [job]);
    }
  }

  /** Graphs without unknown jobs or cycles are exactly those with a topological order. */
  lemma AcyclicIffOrdered(g: Needs)
    ensures AllKnown(g) && Acyclic(g) <==> exists order :: Topological(g, order)
  {
    if AllKnown(g) && Acyclic(g) {
      var order := ExtendOrder(g, []);
    }
    forall order | Topological(g, order) ensures AllKnown(g) && Acyclic(g) {
      TopologicalIsAcyclic(g, order);
    }
  }

  // ---- depth-first validation -----------------------------------------------

  datatype Colour = Visiting | Visited

  datatype Verdict =
    | Accepted
    | UnknownJob(job: string, dependency: string)
    | DependencyCycle(path: seq<string>)

  /** What a rejection has to show for itself. */
  ghost predicate Justified(g: Needs, v: Verdict) {
    match v
    case Accepted => true
    case UnknownJob(job, dependency) => Edge(g, job, dependency) && dependency !in g
    case DependencyCycle(path) => IsCycle(g, path)
  }

  /**
    * The stack is the path of jobs being visited, and the finished jobs are listed after
    * everything they need.
    */
  ghost predicate Colouring(g: Needs, states: map<string, Colour>, stack: seq<string>, finished: seq<string>) {
    && states.Keys <= g.Keys
    && Distinct(stack) && (stack != [] ==> IsPath(g, stack))
    && (forall x :: x in stack <==> x in states && states[x] == Visiting)
    && Distinct(finished) && NeedsEarlier(g, finished)
    && (forall x :: x in finished <==> x in states && states[x] == Visited)
  }

  lemma EnterKeepsColouring(
      g: Needs, states: map<string, Colour>, stack: seq<string>, finished: seq<string>, job: string)
    requires Colouring(g, states, stack, finished)
    requires job in g && job !in states
    requires stack != [] ==> Edge(g, stack[|stack| - 1], job)
    ensures Colouring(g, states[job := Visiting], stack + [job], finished)
  {
    AppendDistinct(stack, job);
    AppendPath(g, stack, job);
  }

  lemma LeaveKeepsColouring(
      g: Needs, states: map<string, Colour>, callers: seq<string>, finished: seq<string>, job: string)
    requires Colouring(g, states, callers + [job], finished)
    requires forall d :: Edge(g, job, d) ==> d in finished
    ensures Colouring(g, states[job := Visited], callers, finished + [job])
  {
    var stack := callers + [job];
    assert stack[|callers|] == job && job in stack;
    assert forall i :: 0 <= i < |callers| ==> stack[i] == callers[i];
    assert job !in callers;
    assert job !in finished;
    AppendDistinct(finished, job);
    AppendOrdered(g, finished, job);
  }

  class Validator {
    const jobs: Needs
    var states: map<string, Colour>
    var stack: seq<string>
    ghost var finished: seq<string>

    constructor (jobs: Needs)
      ensures this.jobs == jobs && states == map[] && stack == [] && finished == []
    {
      this.jobs := jobs;
      states := map[];
      stack := [];
      finished := [];
    }

    ghost predicate Valid()
      reads this
    {
      Colouring(jobs, states, stack, finished)
    }

    method Visit(job: string) returns (v: Verdict)
      requires Valid() && job in jobs
      requires stack != [] ==> Edge(jobs, stack[|stack| - 1], job)
      modifies this
      ensures Justified(jobs, v)
      ensures v.Accepted? ==> Valid() && stack == old(stack) && job in finished && old(finished) <= finished
      ensures old(states.Keys) <= states.Keys
      decreases jobs.Keys - states.Keys
    {
      if job in states {
        if states[job] == Visited {
          return Accepted;
        }
        assert job in stack;
        var start :| 0 <= start < |stack| && stack[start] == job;
        ClosesCycle(jobs, stack, start);
        return DependencyCycle(stack[start..] + [job]);
      }
      EnterKeepsColouring(jobs, states, stack, finished, job);
      states := states[job := Visiting];
      stack := stack + [job];
      var dependencies := jobs[job];
      for i := 0 to |dependencies|
        invariant Valid() && stack == old(stack) + [job] && old(finished) <= finished
        invariant old(states.Keys) <= states.Keys && job in states
        invariant forall k :: 0 <= k < i ==> dependencies[k] in finished
      {
        if dependencies[i] !in jobs {
          return UnknownJob(job, dependencies[i]);
        }
        ghost var before := finished;
        var inner := Visit(dependencies[i]);
        if !inner.Accepted? {
          return inner;
        }
        assert forall x :: x in before ==> x in finished;
      }
      LeaveKeepsColouring(jobs, states, old(stack), finished, job);
      stack := stack[..|stack| - 1];
      states := states[job := Visited];
      finished := finished + [job];
      assert stack == old(stack);
      return Accepted;
    }
  }

  /** Accepts exactly the graphs without unknown jobs and cycles; a rejection names a real one. */
  method ValidateJobGraph(jobs: Needs) returns (v: Verdict)
    ensures v.Accepted? <==> AllKnown(jobs) && Acyclic(jobs)
    ensures Justified(jobs, v)
  {
    var names := Enumerate(jobs.Keys);
    var validator := new Validator(jobs);
    for i := 0 to |names|
      invariant validator.Valid() && validator.jobs == jobs && validator.stack == []
      invariant fresh(validator)
      invariant forall k :: 0 <= k < i ==> names[k] in validator.finished
    {
      v := validator.Visit(names[i]);
      if !v.Accepted? {
        return;
      }
    }
    assert forall x :: x in jobs ==> x in names;
    TopologicalIsAcyclic(jobs, validator.finished);
    return Accepted;
  }
}
