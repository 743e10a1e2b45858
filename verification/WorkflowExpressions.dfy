/** What resolving inputs and outputs gives, said of the expressions and the contexts they see. */
module WorkflowExpressions {
  import opened Common
  import opened WorkflowStatus
  import opened WorkflowDerive
  import WorkflowEnvironment

  /** Every expression resolves in the context, to these values. */
  ghost predicate ValuesOf(c: Config, expressions: map<string, string>, ctx: ResolveContext, values: Outputs) {
    && values.Keys == expressions.Keys
    && forall name :: name in expressions ==> c.resolve(expressions[name], ctx) == Some(values[name])
  }

  ghost predicate Resolves(c: Config, expressions: map<string, string>, ctx: ResolveContext) {
    forall name :: name in expressions ==> c.resolve(expressions[name], ctx).Some?
  }

  lemma ResolveAllIs(c: Config, expressions: map<string, string>, ctx: ResolveContext)
    ensures var r := ResolveAll(c, expressions, ctx);
            && (r.Some? <==> Resolves(c, expressions, ctx))
            && (r.Some? ==> ValuesOf(c, expressions, ctx, r.value))
  {
  }

  /**
    * The inputs of an Action: each declared input has the value given for it, or else its default, and
    * nothing is given that is not declared.
    */
  ghost predicate InputsOf(
      c: Config, given: map<string, string>, ctx: ResolveContext, declared: map<string, ActionInput>, inputs: Outputs) {
    && given.Keys <= declared.Keys && inputs.Keys == declared.Keys
    && forall name :: name in declared ==>
         if name in given then c.resolve(given[name], ctx) == Some(inputs[name])
         else inputs[name] == declared[name].default
  }

  /** A required input has neither a value nor a default. */
  ghost predicate InputMissing(given: map<string, string>, declared: map<string, ActionInput>) {
    exists name :: name in declared && name !in given && declared[name].required && declared[name].default == ""
  }

  lemma ActionInputsAre(
      c: Config, given: map<string, string>, ctx: ResolveContext, declared: map<string, ActionInput>)
    ensures var r := ResolveActionInputs(c, given, ctx, declared);
            && (r.Some? <==>
                  given.Keys <= declared.Keys && Resolves(c, given, ctx) && !InputMissing(given, declared))
            && (r.Some? ==> InputsOf(c, given, ctx, declared, r.value))
  {
    ResolveAllIs(c, given, ctx);
    hide ResolveAll;
    if given.Keys <= declared.Keys && Resolves(c, given, ctx) {
      assert ResolveAll(c, given, ctx).value.Keys == given.Keys;
    }
  }

  /** The declared outputs of a finished Action call, with the inputs and the jobs it saw. */
  ghost predicate DeclaredOutputs(
      c: Config, action: ActionSpec, inner: seq<ActionStepStatus>, given: map<string, string>, ctx: ResolveContext,
      declared: Outputs)
  {
    exists inputs ::
      && InputsOf(c, given, ctx, action.inputs, inputs)
      && ValuesOf(c, action.outputs, ResolveContext(Some(inputs), ActionContext(inner), ctx.jobs), declared)
  }

  lemma ActionOutputsAre(
      c: Config, action: ActionSpec, inner: seq<ActionStepStatus>, given: map<string, string>, ctx: ResolveContext)
    ensures var r := ResolveActionOutputs(c, action, inner, given, ctx);
            r.Some? ==> DeclaredOutputs(c, action, inner, given, ctx, r.value)
    ensures ResolveActionOutputs(c, action, inner, given, ctx).Some? <==>
              ActionResolves(c, action, inner, given, ctx)
  {
    ActionInputsAre(c, given, ctx, action.inputs);
    var r := ResolveActionInputs(c, given, ctx, action.inputs);
    if r.Some? {
      ResolveAllIs(c, action.outputs, ResolveContext(r, ActionContext(inner), ctx.jobs));
      forall inputs | InputsOf(c, given, ctx, action.inputs, inputs) ensures inputs == r.value {
        InputsUnique(c, given, ctx, action.inputs, inputs, r.value);
      }
    }
    hide ResolveActionInputs, ResolveAll, InputsOf, Resolves, InputMissing, ValuesOf;
  }

  /** Both the inputs given to an Action and the outputs it declares resolve. */
  ghost predicate ActionResolves(
      c: Config, action: ActionSpec, inner: seq<ActionStepStatus>, given: map<string, string>, ctx: ResolveContext) {
    && given.Keys <= action.inputs.Keys && Resolves(c, given, ctx) && !InputMissing(given, action.inputs)
    && forall inputs :: InputsOf(c, given, ctx, action.inputs, inputs) ==>
         Resolves(c, action.outputs, ResolveContext(Some(inputs), ActionContext(inner), ctx.jobs))
  }

  lemma InputsUnique(
      c: Config, given: map<string, string>, ctx: ResolveContext, declared: map<string, ActionInput>, a: Outputs,
      b: Outputs)
    requires InputsOf(c, given, ctx, declared, a) && InputsOf(c, given, ctx, declared, b)
    ensures a == b
  {
    forall name | name in a ensures a[name] == b[name] {
      assert name in declared;
    }
  }

  // ---- contexts -------------------------------------------------------------

  ghost predicate Publishing(phase: StepPhase, outputs: Outputs) {
    phase.StepSucceeded? && outputs != map[]
  }

  ghost predicate Publishes(steps: seq<StepStatus>, i: nat, name: string) {
    i < |steps| && steps[i].name == name && Publishing(steps[i].phase, steps[i].outputs)
  }

  /** An expression sees, under each step's name, the public outputs of that step once it has succeeded. */
  lemma {:induction false} StepContextIs(steps: seq<StepStatus>, name: string)
    requires forall i, j :: 0 <= i < j < |steps| ==> steps[i].name != steps[j].name
    ensures name in StepContext(steps) <==> exists i :: Publishes(steps, i, name)
    ensures forall i: nat :: Publishes(steps, i, name) ==>
              && name in StepContext(steps)
              && StepContext(steps)[name] == WorkflowEnvironment.WORKFLOW_ENVIRONMENT.PublicOutputs(steps[i].outputs)
  {
    if steps != [] {
      var n := |steps| - 1;
      var front := steps[..n];
      StepContextIs(front, name);
      assert forall i: nat :: i < n ==> (Publishes(front, i, name) <==> Publishes(steps, i, name));
      assert forall i: nat :: Publishes(front, i, name) ==> Publishes(steps, i, name);
      assert forall i: nat :: Publishes(steps, i, name) ==> i == n || Publishes(front, i, name);
      assert Publishes(steps, n, name) ==> forall i: nat :: !Publishes(front, i, name);
      forall i: nat | Publishes(steps, i, name)
        ensures name in StepContext(steps)
        ensures StepContext(steps)[name] == WorkflowEnvironment.WORKFLOW_ENVIRONMENT.PublicOutputs(steps[i].outputs)
      {
        if i < n {
          assert Publishes(front, i, name);
        }
      }
    }
  }

  ghost predicate PublishesInside(steps: seq<ActionStepStatus>, i: nat, name: string) {
    i < |steps| && steps[i].name == name && Publishing(steps[i].phase, steps[i].outputs)
  }

  lemma {:induction false} ActionContextIs(steps: seq<ActionStepStatus>, name: string)
    requires forall i, j :: 0 <= i < j < |steps| ==> steps[i].name != steps[j].name
    ensures name in ActionContext(steps) <==> exists i :: PublishesInside(steps, i, name)
    ensures forall i: nat :: PublishesInside(steps, i, name) ==>
              && name in ActionContext(steps)
              && ActionContext(steps)[name] == WorkflowEnvironment.WORKFLOW_ENVIRONMENT.PublicOutputs(steps[i].outputs)
  {
    if steps != [] {
      var n := |steps| - 1;
      var front := steps[..n];
      ActionContextIs(front, name);
      assert forall i: nat :: i < n ==> (PublishesInside(front, i, name) <==> PublishesInside(steps, i, name));
      assert forall i: nat :: PublishesInside(front, i, name) ==> PublishesInside(steps, i, name);
      assert forall i: nat :: PublishesInside(steps, i, name) ==> i == n || PublishesInside(front, i, name);
      assert PublishesInside(steps, n, name) ==> forall i: nat :: !PublishesInside(front, i, name);
      forall i: nat | PublishesInside(steps, i, name)
        ensures name in ActionContext(steps)
        ensures ActionContext(steps)[name] == WorkflowEnvironment.WORKFLOW_ENVIRONMENT.PublicOutputs(steps[i].outputs)
      {
        if i < n {
          assert PublishesInside(front, i, name);
        }
      }
    }
  }

  /** It sees, under each job's name, the public outputs of that job once it has succeeded. */
  lemma JobContextIs(jobs: JobStatuses, job: string)
    ensures job in JobContext(jobs) <==> job in jobs && jobs[job].phase == JobSucceeded && jobs[job].outputs != map[]
    ensures job in JobContext(jobs) ==>
              JobContext(jobs)[job] == WorkflowEnvironment.WORKFLOW_ENVIRONMENT.PublicOutputs(jobs[job].outputs)
  {
  }

  /** Steps that publish nothing add nothing to the context. */
  lemma {:induction false} ContextOfFront(steps: seq<StepStatus>, i: nat)
    requires i <= |steps| && forall j :: i <= j < |steps| ==> !steps[j].phase.StepSucceeded?
    ensures StepContext(steps) == StepContext(steps[..i])
  {
    if i < |steps| {
      ContextOfFront(steps[..|steps| - 1], i);
      assert steps[..|steps| - 1][..i] == steps[..i];
    } else {
      assert steps[..i] == steps;
    }
  }

  /** What an Action call collects leaves the outputs it declares to expressions as they are. */
  lemma {:induction false} CollectedPublic(declared: Outputs, inner: seq<ActionStepStatus>)
    ensures var space := WorkflowEnvironment.WORKFLOW_ENVIRONMENT;
            space.PublicOutputs(space.CollectActionOutputs(declared, inner)) == space.PublicOutputs(declared)
  {
    var space := WorkflowEnvironment.WORKFLOW_ENVIRONMENT;
    if inner != [] {
      CollectedPublic(declared, inner[..|inner| - 1]);
      var before, last := space.CollectActionOutputs(declared, inner[..|inner| - 1]), inner[|inner| - 1];
      assert space.PublicOutputs(before + space.ReservedOutputs(last.outputs)) == space.PublicOutputs(before);
    }
  }
}
