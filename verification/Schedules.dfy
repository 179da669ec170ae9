/** Building runs of the loader system step by step. */
module Schedules {
  import opened LoaderProtocol

  lemma {:induction false} RunsConcatenate(s: System, a: seq<Label>, b: seq<Label>)
    requires Executable(s, a) && Executable(After(s, a), b)
    ensures Executable(s, a + b) && After(s, a + b) == After(After(s, a), b)
  {
    if b == [] {
      assert a + b == a;
    } else {
      RunsConcatenate(s, a, b[..|b| - 1]);
      assert (a + b)[..|a + b| - 1] == a + b[..|b| - 1];
    }
  }

  lemma OneStep(s: System, l: Label)
    requires Enabled(s, l)
    ensures Executable(s, [l]) && After(s, [l]) == Next(s, l)
  {
    assert [l][..0] == [];
  }

  lemma Extend(s: System, labels: seq<Label>, l: Label)
    requires Executable(s, labels) && Enabled(After(s, labels), l)
    ensures Executable(s, labels + [l]) && After(s, labels + [l]) == Next(After(s, labels), l)
  {
    assert (labels + [l])[..|labels|] == labels;
  }

  lemma StepFirst(s: System, l: Label, labels: seq<Label>)
    requires Enabled(s, l) && Executable(Next(s, l), labels)
    ensures Executable(s, [l] + labels) && After(s, [l] + labels) == After(Next(s, l), labels)
  {
    OneStep(s, l);
    RunsConcatenate(s, [l], labels);
  }

  lemma ThreeSteps(s: System, a: Label, b: Label, c: Label)
    requires Enabled(s, a) && Enabled(Next(s, a), b) && Enabled(Next(Next(s, a), b), c)
    ensures Executable(s, [a, b, c]) && After(s, [a, b, c]) == Next(Next(Next(s, a), b), c)
  {
    OneStep(Next(Next(s, a), b), c);
    StepFirst(Next(s, a), b, [c]);
    assert [b] + [c] == [b, c];
    StepFirst(s, a, [b, c]);
    assert [a] + [b, c] == [a, b, c];
  }

  // ----- Runs with their states -----

  predicate Step(states: seq<System>, labels: seq<Label>, i: nat) {
    && i < |labels| && i + 1 < |states|
    && Enabled(states[i], labels[i]) && states[i + 1] == Next(states[i], labels[i])
  }

  /** The states a run goes through. */
  predicate Path(states: seq<System>, labels: seq<Label>) {
    && |states| == |labels| + 1
    && forall i {:trigger Step(states, labels, i)} :: 0 <= i < |labels| ==> Step(states, labels, i)
  }

  lemma PathsJoin(p: seq<System>, a: seq<Label>, q: seq<System>, b: seq<Label>)
    requires Path(p, a) && Path(q, b) && p[|a|] == q[0]
    ensures Path(p + q[1..], a + b)
  {
    var states, labels := p + q[1..], a + b;
    forall i | 0 <= i < |labels|
      ensures Step(states, labels, i)
    {
      if i < |a| {
        assert Step(p, a, i);
      } else {
        assert Step(q, b, i - |a|);
      }
    }
  }

  lemma PathPrefix(states: seq<System>, labels: seq<Label>)
    requires Path(states, labels) && labels != []
    ensures Path(states[..|labels|], labels[..|labels| - 1])
  {
    var p, a := states[..|labels|], labels[..|labels| - 1];
    forall i | 0 <= i < |a|
      ensures Step(p, a, i)
    {
      assert Step(states, labels, i);
    }
  }

  lemma {:induction false} PathsAreRuns(states: seq<System>, labels: seq<Label>)
    requires Path(states, labels)
    ensures Executable(states[0], labels) && After(states[0], labels) == states[|labels|]
  {
    if labels != [] {
      PathPrefix(states, labels);
      PathsAreRuns(states[..|labels|], labels[..|labels| - 1]);
      assert Step(states, labels, |labels| - 1);
    }
  }

  lemma {:induction false} RunsArePaths(s: System, labels: seq<Label>) returns (states: seq<System>)
    requires Executable(s, labels)
    ensures Path(states, labels) && states[0] == s && states[|labels|] == After(s, labels)
  {
    if labels == [] {
      return [s];
    }
    var front, l := labels[..|labels| - 1], labels[|labels| - 1];
    var before := RunsArePaths(s, front);
    OneStepPath(After(s, front), l);
    PathsJoin(before, front, [After(s, front), After(s, labels)], [l]);
    assert front + [l] == labels;
    states := before + [After(s, front), After(s, labels)][1..];
  }

  lemma OneStepPath(s: System, l: Label)
    requires Enabled(s, l)
    ensures Path([s, Next(s, l)], [l])
  {
  }
}
