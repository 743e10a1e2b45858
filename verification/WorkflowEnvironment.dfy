/** Environment values that steps publish to later steps of the same job through reserved outputs. */
module WorkflowEnvironment {
  import opened Common
  import opened WorkflowStatus

  type Environment = map<string, string>

  predicate IdentifierStart(c: char) {
    'a' <= c <= 'z' || 'A' <= c <= 'Z' || c == '_'
  }

  predicate IsCIdentifier(name: string) {
    name != "" && IdentifierStart(name[0]) && forall c | c in name :: IdentifierStart(c) || '0' <= c <= '9'
  }

  /** A digit is accepted anywhere but first. */
  lemma IdentifierIff(name: string, c: char)
    ensures !IsCIdentifier("") && (IsCIdentifier([c]) <==> 'a' <= c <= 'z' || 'A' <= c <= 'Z' || c == '_')
    ensures name != "" ==>
              (IsCIdentifier(name + [c]) <==> IsCIdentifier(name) && (IsCIdentifier([c]) || '0' <= c <= '9'))
  {
    forall d ensures d in name + [c] <==> d in name || d == c {
    }
    assert name != "" ==> (name + [c])[0] == name[0];
  }

  /** Overlays maps in order, later ones overriding earlier ones. */
  ghost function MergeAll<K, V>(ms: seq<map<K, V>>): map<K, V> {
    if ms == [] then map[] else MergeAll(ms[..|ms| - 1]) + ms[|ms| - 1]
  }

  lemma OverlayAssociative<K, V>(a: map<K, V>, b: map<K, V>, c: map<K, V>)
    ensures (a + b) + c == a + (b + c)
  {
  }

  lemma MergeAppend<K, V>(ms: seq<map<K, V>>, m: map<K, V>)
    ensures MergeAll(ms + [m]) == MergeAll(ms) + m
  {
    assert (ms + [m])[..|ms + [m]| - 1] == ms;
  }

  lemma {:induction false} MergeConcat<K, V>(a: seq<map<K, V>>, b: seq<map<K, V>>)
    ensures MergeAll(a + b) == MergeAll(a) + MergeAll(b)
  {
    if b == [] {
      assert a + b == a;
    } else {
      var init, last := b[..|b| - 1], b[|b| - 1];
      MergeConcat(a, init);
      assert a + b == (a + init) + [last];
      MergeAppend(a + init, last);
      OverlayAssociative(MergeAll(a), MergeAll(init), last);
    }
  }

  /** A merge holds, for every key, the value of the last map that has the key. */
  lemma {:induction false} LastWriteWins<K, V>(ms: seq<map<K, V>>, key: K)
    ensures key in MergeAll(ms) <==> exists i :: 0 <= i < |ms| && key in ms[i]
    ensures forall i :: 0 <= i < |ms| && key in ms[i] && (forall j :: i < j < |ms| ==> key !in ms[j])
              ==> MergeAll(ms)[key] == ms[i][key]
  {
    if ms != [] {
      var init := ms[..|ms| - 1];
      LastWriteWins(init, key);
      assert forall i :: 0 <= i < |init| ==> ms[i] == init[i];
    }
  }

  /** result is a with every key of b outside rest already written. */
  ghost predicate Overlaid<K(!new), V>(a: map<K, V>, b: map<K, V>, rest: set<K>, result: map<K, V>) {
    && (forall k :: k in result <==> k in a || (k in b && k !in rest))
    && (forall k :: k in result ==>
          result[k] == if k in b && k !in rest then b[k] else if k in a then a[k] else result[k])
  }

  lemma OverlayOne<K(!new), V>(a: map<K, V>, b: map<K, V>, rest: set<K>, result: map<K, V>, key: K)
    requires Overlaid(a, b, rest, result) && key in rest && key in b
    ensures Overlaid(a, b, rest - {key}, result[key := b[key]])
  {
  }

  lemma OverlayDone<K(!new), V>(a: map<K, V>, b: map<K, V>, result: map<K, V>)
    requires Overlaid(a, b, {}, result)
    ensures result == a + b
  {
  }

  /** The outputs of the succeeded steps among steps, in order. */
  ghost function StepOutputs(steps: seq<StepStatus>): seq<Outputs> {
    if steps == [] then []
    else
      var last := steps[|steps| - 1];
      StepOutputs(steps[..|steps| - 1]) + if last.phase.StepSucceeded? then [last.outputs] else []
  }

  ghost function ActionStepOutputs(steps: seq<ActionStepStatus>): seq<Outputs> {
    if steps == [] then []
    else
      var last := steps[|steps| - 1];
      ActionStepOutputs(steps[..|steps| - 1]) + if last.phase.StepSucceeded? then [last.outputs] else []
  }

  function Clip(n: int, limit: nat): (k: nat)
    ensures k <= limit && (k <= n || k == 0) && (k == limit || n <= k)
  {
    if n < 0 then 0 else if n < limit then n else limit
  }

  lemma {:induction false} StepOutputsGrow(steps: seq<StepStatus>, i: nat, n: nat)
    requires i < n <= |steps| && steps[i].phase.StepSucceeded?
    ensures |StepOutputs(steps[..i])| < |StepOutputs(steps[..n])|
    ensures StepOutputs(steps[..n])[|StepOutputs(steps[..i])|] == steps[i].outputs
  {
    assert steps[..n][..n - 1] == steps[..n - 1];
    if i < n - 1 {
      StepOutputsGrow(steps, i, n - 1);
    }
  }

  lemma {:induction false} ActionStepOutputsGrow(steps: seq<ActionStepStatus>, i: nat, n: nat)
    requires i < n <= |steps| && steps[i].phase.StepSucceeded?
    ensures |ActionStepOutputs(steps[..i])| < |ActionStepOutputs(steps[..n])|
    ensures ActionStepOutputs(steps[..n])[|ActionStepOutputs(steps[..i])|] == steps[i].outputs
  {
    assert steps[..n][..n - 1] == steps[..n - 1];
    if i < n - 1 {
      ActionStepOutputsGrow(steps, i, n - 1);
    }
  }

  /** The output keys under one prefix, kept back from expressions and read as variables. */
  datatype ReservedNamespace = ReservedNamespace(prefix: string) {

    predicate Reserved(key: string) {
      prefix <= key
    }

    function VariableName(key: string): string
      requires Reserved(key)
    {
      key[|prefix|..]
    }

    ghost predicate EnvironmentValid(outputs: Outputs) {
      forall key :: key in outputs && Reserved(key) ==> IsCIdentifier(VariableName(key))
    }

    /** The environment a set of outputs publishes. */
    ghost function EnvironmentOf(outputs: Outputs): Environment {
      map name | name in PublishedNames(outputs) :: outputs[prefix + name]
    }

    ghost function PublishedNames(outputs: Outputs): (names: set<string>)
      ensures forall name :: name in names <==> prefix + name in outputs
    {
      var names := set key | key in outputs && Reserved(key) :: VariableName(key);
      assert forall key :: key in outputs && Reserved(key) ==> prefix + VariableName(key) == key;
      assert forall name :: prefix + name in outputs ==> VariableName(prefix + name) == name;
      names
    }

    method WorkflowEnvironmentOutputs(outputs: Outputs) returns (environment: Option<Environment>)
      ensures environment.Some? <==> EnvironmentValid(outputs)
      ensures environment.Some? ==> environment.value == EnvironmentOf(outputs)
    {
      var found: Environment := map[];
      var rest := outputs.Keys;
      while rest != {}
        invariant rest <= outputs.Keys
        invariant forall key :: key in outputs && key !in rest && Reserved(key) ==> IsCIdentifier(VariableName(key))
        invariant forall name :: name in found <==> prefix + name in outputs && prefix + name !in rest
        invariant forall name :: name in found ==> found[name] == outputs[prefix + name]
      {
        var key :| key in rest;
        rest := rest - {key};
        if Reserved(key) {
          assert prefix + VariableName(key) == key;
          if !IsCIdentifier(VariableName(key)) {
            return None;
          }
          ghost var before := found;
          found := found[VariableName(key) := outputs[key]];
          forall name ensures name in found <==> prefix + name in outputs && prefix + name !in rest {
            if prefix + name == key {
              assert VariableName(key) == name;
            }
          }
        } else {
          assert forall name :: Reserved(prefix + name);
        }
      }
      assert found == EnvironmentOf(outputs);
      environment := Some(found);
    }

    ghost function Environments(outs: seq<Outputs>): (es: seq<Environment>)
      ensures |es| == |outs| && forall i :: 0 <= i < |outs| ==> es[i] == EnvironmentOf(outs[i])
    {
      seq(|outs|, i requires 0 <= i < |outs| => EnvironmentOf(outs[i]))
    }

    /** The environment after a sequence of outputs, later ones overriding earlier ones. */
    ghost function Merged(outs: seq<Outputs>): Environment {
      MergeAll(Environments(outs))
    }

    lemma MergedNone()
      ensures Merged([]) == map[]
    {
    }

    lemma MergedAppend(outs: seq<Outputs>, last: Outputs)
      ensures Merged(outs + [last]) == Merged(outs) + EnvironmentOf(last)
    {
      hide EnvironmentOf;
      assert Environments(outs + [last]) == Environments(outs) + [EnvironmentOf(last)];
      MergeAppend(Environments(outs), EnvironmentOf(last));
    }

    lemma MergedConcat(a: seq<Outputs>, b: seq<Outputs>)
      ensures Merged(a + b) == Merged(a) + Merged(b)
    {
      hide EnvironmentOf;
      assert Environments(a + b) == Environments(a) + Environments(b);
      MergeConcat(Environments(a), Environments(b));
    }

    ghost predicate AllValid(outs: seq<Outputs>) {
      forall i :: 0 <= i < |outs| ==> EnvironmentValid(outs[i])
    }

    // ---- what a step inherits -------------------------------------------------

    /** Everything published before the target; actionStepIndex is one-based, 0 for an inline step. */
    ghost function InheritedOutputs(steps: seq<StepStatus>, stepIndex: nat, actionStepIndex: nat): seq<Outputs> {
      StepOutputs(steps[..Clip(stepIndex, |steps|)]) +
      if actionStepIndex == 0 || stepIndex >= |steps| then []
      else
        var inner := steps[stepIndex].actionSteps;
        ActionStepOutputs(inner[..Clip(actionStepIndex - 1, |inner|)])
    }

    method MergeWorkflowEnvironment(environment: Environment, outputs: Outputs) returns (merged: Option<Environment>)
      ensures merged.Some? <==> EnvironmentValid(outputs)
      ensures merged.Some? ==> merged.value == environment + EnvironmentOf(outputs)
    {
      var updates := WorkflowEnvironmentOutputs(outputs);
      if updates.None? {
        return None;
      }
      var result := environment;
      var rest := updates.value.Keys;
      while rest != {}
        invariant rest <= updates.value.Keys
        invariant Overlaid(environment, updates.value, rest, result)
      {
        var name :| name in rest;
        OverlayOne(environment, updates.value, rest, result, name);
        rest := rest - {name};
        result := result[name := updates.value[name]];
      }
      OverlayDone(environment, updates.value, result);
      merged := Some(result);
    }

    method WorkflowStepEnvironment(steps: seq<StepStatus>, stepIndex: nat, actionStepIndex: nat)
      returns (environment: Option<Environment>)
      ensures environment.Some? <==> AllValid(InheritedOutputs(steps, stepIndex, actionStepIndex))
      ensures environment.Some? ==> environment.value == Merged(InheritedOutputs(steps, stepIndex, actionStepIndex))
    {
      hide EnvironmentOf, Merged, EnvironmentValid;
      MergedNone();
      var merged: Environment := map[];
      var index := 0;
      ghost var outs: seq<Outputs> := [];
      while index < stepIndex && index < |steps|
        invariant 0 <= index <= Clip(stepIndex, |steps|)
        invariant outs == StepOutputs(steps[..index]) && AllValid(outs) && merged == Merged(outs)
      {
        var step := steps[index];
        assert steps[..index + 1][..index] == steps[..index];
        if step.phase.StepSucceeded? {
          var next := MergeWorkflowEnvironment(merged, step.outputs);
          if next.None? {
            StepOutputsGrow(steps, index, Clip(stepIndex, |steps|));
            InvalidPublisher(InheritedOutputs(steps, stepIndex, actionStepIndex), |outs|, step.outputs);
            return None;
          }
          MergedAppend(outs, step.outputs);
          outs := outs + [step.outputs];
          merged := next.value;
        }
        index := index + 1;
      }
      if actionStepIndex == 0 || stepIndex >= |steps| {
        assert outs + [] == outs;
        return Some(merged);
      }
      environment := InheritActionSteps(steps[stepIndex].actionSteps, actionStepIndex - 1, merged, outs);
    }

    /** Continues with the Action-local steps before the given one. */
    method InheritActionSteps(inner: seq<ActionStepStatus>, count: nat, start: Environment, ghost base: seq<Outputs>)
      returns (environment: Option<Environment>)
      requires AllValid(base) && start == Merged(base)
      ensures environment.Some? <==> AllValid(base + ActionStepOutputs(inner[..Clip(count, |inner|)]))
      ensures environment.Some? ==> environment.value == Merged(base + ActionStepOutputs(inner[..Clip(count, |inner|)]))
    {
      hide EnvironmentOf, Merged, EnvironmentValid;
      var merged := start;
      ghost var outs := base;
      var index := 0;
      assert base + [] == base;
      while index < count && index < |inner|
        invariant 0 <= index <= Clip(count, |inner|)
        invariant outs == base + ActionStepOutputs(inner[..index]) && AllValid(outs) && merged == Merged(outs)
      {
        var step := inner[index];
        assert inner[..index + 1][..index] == inner[..index];
        if step.phase.StepSucceeded? {
          var next := MergeWorkflowEnvironment(merged, step.outputs);
          if next.None? {
            ActionStepOutputsGrow(inner, index, Clip(count, |inner|));
            InvalidPublisher(base + ActionStepOutputs(inner[..Clip(count, |inner|)]), |outs|, step.outputs);
            return None;
          }
          MergedAppend(outs, step.outputs);
          outs := outs + [step.outputs];
          merged := next.value;
        }
        index := index + 1;
      }
      environment := Some(merged);
    }

    lemma InvalidPublisher(outs: seq<Outputs>, i: nat, outputs: Outputs)
      requires i < |outs| && outs[i] == outputs && !EnvironmentValid(outputs)
      ensures !AllValid(outs)
    {
    }

    // ---- public outputs -------------------------------------------------------

    function PublicOutputs(outputs: Outputs): Outputs {
      map key | key in outputs && !Reserved(key) :: outputs[key]
    }

    function ReservedOutputs(outputs: Outputs): Outputs {
      map key | key in outputs && Reserved(key) :: outputs[key]
    }

    /** Outputs split into an expression-visible half and an environment half, and nothing else. */
    lemma OutputsSplit(outputs: Outputs)
      ensures PublicOutputs(outputs) + ReservedOutputs(outputs) == outputs
      ensures PublicOutputs(outputs).Keys !! ReservedOutputs(outputs).Keys
      ensures EnvironmentOf(PublicOutputs(outputs)) == map[]
      ensures EnvironmentOf(ReservedOutputs(outputs)) == EnvironmentOf(outputs)
    {
      PublicPublishesNothing(outputs);
      ReservedPublishesAll(outputs);
      hide EnvironmentOf, Reserved;
    }

    lemma PublicPublishesNothing(outputs: Outputs)
      ensures EnvironmentOf(PublicOutputs(outputs)) == map[]
    {
      assert forall name :: Reserved(prefix + name);
      assert forall name :: name in PublishedNames(PublicOutputs(outputs)) ==> false;
    }

    lemma ReservedPublishesAll(outputs: Outputs)
      ensures EnvironmentOf(ReservedOutputs(outputs)) == EnvironmentOf(outputs)
    {
      assert forall name :: Reserved(prefix + name);
      assert forall name :: name in PublishedNames(ReservedOutputs(outputs)) <==> name in PublishedNames(outputs);
    }

    method PublicWorkflowOutputs(outputs: Outputs) returns (public: Outputs)
      ensures public == PublicOutputs(outputs)
    {
      public := outputs;
      var rest := outputs.Keys;
      while rest != {}
        invariant rest <= outputs.Keys
        invariant public == map key | key in outputs && (key in rest || !Reserved(key)) :: outputs[key]
      {
        var key :| key in rest;
        rest := rest - {key};
        if Reserved(key) {
          public := public - {key};
        }
      }
    }

    // ---- Actions --------------------------------------------------------------

    /** An Action call's outputs: its declared ones, overlaid with what its inner steps published. */
    function CollectActionOutputs(declared: Outputs, inner: seq<ActionStepStatus>): Outputs {
      if inner == [] then declared
      else
        var last := inner[|inner| - 1];
        var before := CollectActionOutputs(declared, inner[..|inner| - 1]);
        if last.phase.StepSucceeded?
        then before + ReservedOutputs(last.outputs)
        else before
    }

    lemma EnvironmentOfOverlay(a: Outputs, b: Outputs)
      ensures EnvironmentOf(a + b) == EnvironmentOf(a) + EnvironmentOf(b)
    {
      assert forall name :: name in PublishedNames(a + b) <==> name in PublishedNames(a) || name in PublishedNames(b);
    }

    lemma OverlayPublished(a: Outputs, b: Outputs)
      ensures EnvironmentOf(a + ReservedOutputs(b)) == EnvironmentOf(a) + EnvironmentOf(b)
    {
      EnvironmentOfOverlay(a, ReservedOutputs(b));
      OutputsSplit(b);
    }

    /** What an Action call publishes is its declared part overlaid with its inner steps in order. */
    lemma {:induction false} CollectedEnvironment(declared: Outputs, inner: seq<ActionStepStatus>)
      ensures EnvironmentOf(CollectActionOutputs(declared, inner))
           == EnvironmentOf(declared) + Merged(ActionStepOutputs(inner))
    {
      hide EnvironmentOf, Merged;
      if inner == [] {
        MergedNone();
      } else {
        var init, last := inner[..|inner| - 1], inner[|inner| - 1];
        CollectedEnvironment(declared, init);
        if last.phase.StepSucceeded? {
          OverlayPublished(CollectActionOutputs(declared, init), last.outputs);
          MergedAppend(ActionStepOutputs(init), last.outputs);
          OverlayAssociative(EnvironmentOf(declared), Merged(ActionStepOutputs(init)), EnvironmentOf(last.outputs));
        } else {
          assert ActionStepOutputs(inner) == ActionStepOutputs(init);
        }
      }
    }

    /** Every reserved name the Action declares is also published by one of its own steps. */
    ghost predicate DeclaresOnlyOverwritten(declared: Outputs, inner: seq<ActionStepStatus>) {
      forall name :: prefix + name in declared ==> name in Merged(ActionStepOutputs(inner))
    }

    lemma OverwrittenIsInlined(declared: Outputs, inner: seq<ActionStepStatus>)
      requires DeclaresOnlyOverwritten(declared, inner)
      ensures EnvironmentOf(CollectActionOutputs(declared, inner)) == Merged(ActionStepOutputs(inner))
    {
      CollectedEnvironment(declared, inner);
    }

    /** An Action call is transparent in every environment exactly when that condition holds. */
    lemma ActionTransparentIff(declared: Outputs, inner: seq<ActionStepStatus>)
      ensures DeclaresOnlyOverwritten(declared, inner)
         <==> forall environment: Environment ::
                environment + EnvironmentOf(CollectActionOutputs(declared, inner))
                == environment + Merged(ActionStepOutputs(inner))
    {
      var call := EnvironmentOf(CollectActionOutputs(declared, inner));
      var inlined := Merged(ActionStepOutputs(inner));
      CollectedEnvironment(declared, inner);
      if DeclaresOnlyOverwritten(declared, inner) {
        OverwrittenIsInlined(declared, inner);
      } else {
        var name :| prefix + name in declared && name !in inlined;
        var empty: Environment := map[];
        assert name in EnvironmentOf(declared);
        assert name in empty + call && name !in empty + inlined;
      }
    }

    /** An Action with one succeeded step that publishes nothing leaks the reserved output it declares. */
    lemma DeclaredReservedOutputLeaks(step: string, run: string)
      ensures var inner := [ActionStepStatus(step, StepSucceeded, run, map[])];
              && "A" in EnvironmentOf(CollectActionOutputs(map[prefix + "A" := "1"], inner))
              && "A" !in Merged(ActionStepOutputs(inner))
    {
      hide *;
      var inner := [ActionStepStatus(step, StepSucceeded, run, map[])];
      CollectedEnvironment(map[prefix + "A" := "1"], inner);
      Publishes("A", "1");
      SilentStep(step, run);
    }

    lemma Publishes(name: string, value: string)
      ensures name in EnvironmentOf(map[prefix + name := value])
    {
      assert (prefix + name)[|prefix|..] == name;
      assert name in PublishedNames(map[prefix + name := value]);
    }

    lemma SilentStep(step: string, run: string)
      ensures Merged(ActionStepOutputs([ActionStepStatus(step, StepSucceeded, run, map[])])) == map[]
    {
      var inner := [ActionStepStatus(step, StepSucceeded, run, map[])];
      assert inner[..0] == [];
      assert ActionStepOutputs(inner) == [] + [map[]];
      MergedAppend([], map[]);
      MergedNone();
      assert EnvironmentOf(map[]) == map[];
    }

    /** Replaces every Action call by its inner steps. */
    ghost function InlinedOutputs(steps: seq<StepStatus>): seq<Outputs> {
      if steps == [] then []
      else
        var last := steps[|steps| - 1];
        InlinedOutputs(steps[..|steps| - 1]) +
        if !last.phase.StepSucceeded? then []
        else if last.actionSteps == [] then [last.outputs]
        else ActionStepOutputs(last.actionSteps)
    }

    /** A finished Action call carries the outputs that status derivation gave it. */
    ghost predicate CallOutputsDerived(step: StepStatus) {
      step.actionSteps != [] && step.phase.StepSucceeded? ==>
        exists declared :: DeclaresOnlyOverwritten(declared, step.actionSteps)
                        && step.outputs == CollectActionOutputs(declared, step.actionSteps)
    }

    lemma {:induction false} StepsTransparent(steps: seq<StepStatus>)
      requires forall i :: 0 <= i < |steps| ==> CallOutputsDerived(steps[i])
      ensures Merged(StepOutputs(steps)) == Merged(InlinedOutputs(steps))
    {
      hide EnvironmentOf, Merged, DeclaresOnlyOverwritten;
      if steps != [] {
        var init, last := steps[..|steps| - 1], steps[|steps| - 1];
        StepsTransparent(init);
        if last.phase.StepSucceeded? {
          MergedAppend(StepOutputs(init), last.outputs);
          if last.actionSteps == [] {
            MergedAppend(InlinedOutputs(init), last.outputs);
          } else {
            assert CallOutputsDerived(last);
            var declared :| DeclaresOnlyOverwritten(declared, last.actionSteps)
                         && last.outputs == CollectActionOutputs(declared, last.actionSteps);
            OverwrittenIsInlined(declared, last.actionSteps);
            MergedConcat(InlinedOutputs(init), ActionStepOutputs(last.actionSteps));
          }
        } else {
          assert StepOutputs(steps) == StepOutputs(init) && InlinedOutputs(steps) == InlinedOutputs(init);
        }
      }
    }

    /** What a target would inherit if every Action call before it were replaced by its inner steps. */
    ghost function InlinedInherited(steps: seq<StepStatus>, stepIndex: nat, actionStepIndex: nat): seq<Outputs> {
      InlinedOutputs(steps[..Clip(stepIndex, |steps|)]) +
      if actionStepIndex == 0 || stepIndex >= |steps| then []
      else
        var inner := steps[stepIndex].actionSteps;
        ActionStepOutputs(inner[..Clip(actionStepIndex - 1, |inner|)])
    }

    /** The variable as the last of the first n steps that succeeded with a value for it left it. */
    ghost function LastValue(steps: seq<StepStatus>, n: nat, name: string): Option<string>
      requires n <= |steps|
    {
      if n == 0 then None
      else if steps[n - 1].phase.StepSucceeded? && prefix + name in steps[n - 1].outputs
      then Some(steps[n - 1].outputs[prefix + name])
      else LastValue(steps, n - 1, name)
    }

    ghost function LastInnerValue(inner: seq<ActionStepStatus>, n: nat, name: string): Option<string>
      requires n <= |inner|
    {
      if n == 0 then None
      else if inner[n - 1].phase.StepSucceeded? && prefix + name in inner[n - 1].outputs
      then Some(inner[n - 1].outputs[prefix + name])
      else LastInnerValue(inner, n - 1, name)
    }

    static ghost function Lookup(environment: Environment, name: string): Option<string> {
      if name in environment then Some(environment[name]) else None
    }

    lemma PublishedValue(outputs: Outputs, name: string)
      ensures Lookup(EnvironmentOf(outputs), name)
           == if prefix + name in outputs then Some(outputs[prefix + name]) else None
    {
    }

    lemma {:induction false} StepsPublish(steps: seq<StepStatus>, n: nat, name: string)
      requires n <= |steps|
      ensures Lookup(Merged(StepOutputs(steps[..n])), name) == LastValue(steps, n, name)
    {
      hide EnvironmentOf, Merged;
      if n == 0 {
        MergedNone();
      } else {
        StepsPublish(steps, n - 1, name);
        assert steps[..n][..n - 1] == steps[..n - 1];
        var before := StepOutputs(steps[..n - 1]);
        assert before + [] == before;
        MergedAppend(before, steps[n - 1].outputs);
        PublishedValue(steps[n - 1].outputs, name);
      }
    }

    lemma {:induction false} InnerPublish(inner: seq<ActionStepStatus>, n: nat, name: string)
      requires n <= |inner|
      ensures Lookup(Merged(ActionStepOutputs(inner[..n])), name) == LastInnerValue(inner, n, name)
    {
      hide EnvironmentOf, Merged;
      if n == 0 {
        MergedNone();
      } else {
        InnerPublish(inner, n - 1, name);
        assert inner[..n][..n - 1] == inner[..n - 1];
        var before := ActionStepOutputs(inner[..n - 1]);
        assert before + [] == before;
        MergedAppend(before, inner[n - 1].outputs);
        PublishedValue(inner[n - 1].outputs, name);
      }
    }

    /**
      * What a target finds in its environment: the value of the last succeeded step before it that has one,
      * the steps of its own Action counting as later than those before the Action.
      */
    lemma StepInherits(steps: seq<StepStatus>, stepIndex: nat, actionStepIndex: nat, name: string)
      requires stepIndex < |steps| && actionStepIndex <= |steps[stepIndex].actionSteps|
      ensures var inside := if actionStepIndex == 0 then None
                            else LastInnerValue(steps[stepIndex].actionSteps, actionStepIndex - 1, name);
              Lookup(Merged(InheritedOutputs(steps, stepIndex, actionStepIndex)), name)
              == if inside.Some? then inside else LastValue(steps, stepIndex, name)
    {
      hide EnvironmentOf, Merged;
      StepsPublish(steps, stepIndex, name);
      var outer := StepOutputs(steps[..stepIndex]);
      if actionStepIndex == 0 {
        assert outer + [] == outer;
      } else {
        var inner := steps[stepIndex].actionSteps;
        InnerPublish(inner, actionStepIndex - 1, name);
        MergedConcat(outer, ActionStepOutputs(inner[..actionStepIndex - 1]));
      }
    }

    /** Derived calls are transparent to every later target, also in the middle of an Action. */
    lemma ActionCallsAreTransparent(steps: seq<StepStatus>, stepIndex: nat, actionStepIndex: nat)
      requires forall i :: 0 <= i < |steps| && i < stepIndex ==> CallOutputsDerived(steps[i])
      ensures Merged(InheritedOutputs(steps, stepIndex, actionStepIndex))
           == Merged(InlinedInherited(steps, stepIndex, actionStepIndex))
    {
      var before := steps[..Clip(stepIndex, |steps|)];
      var rest := if actionStepIndex == 0 || stepIndex >= |steps| then []
                  else
                    var inner := steps[stepIndex].actionSteps;
                    ActionStepOutputs(inner[..Clip(actionStepIndex - 1, |inner|)]);
      StepsTransparent(before);
      MergedConcat(StepOutputs(before), rest);
      MergedConcat(InlinedOutputs(before), rest);
    }
  }

  const WORKFLOW_ENVIRONMENT := ReservedNamespace("kruntimes.io/env/")
}
