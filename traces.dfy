/** Whole sessions: a sequence of actions dispatched one at a time, each
    to the state the previous one produced. */
module Traces {
  import opened Domain
  import opened Grid
  import opened Records
  import opened Reducer
  import opened Sessions

  /** Every action of `acts` meets the engine's demand in the state it meets. */
  predicate Runnable(seed: Seed, s: State, acts: seq<Action>)
    decreases |acts|
  {
    acts == [] || (Enabled(s, acts[0]) && Runnable(seed, Reduce(seed, s, acts[0]), acts[1..]))
  }

  /** The state after dispatching `acts` in order. */
  function Run(seed: Seed, s: State, acts: seq<Action>): State
    requires Runnable(seed, s, acts)
    decreases |acts|
  {
    if acts == [] then s else Run(seed, Reduce(seed, s, acts[0]), acts[1..])
  }

  /** How many actions of `acts` start an assessment. */
  function Starts(acts: seq<Action>): nat {
    if acts == [] then 0 else (if acts[0].StartAssessment? then 1 else 0) + Starts(acts[1..])
  }

  /** How many actions of `acts` add a patient. */
  function Adds(acts: seq<Action>): nat {
    if acts == [] then 0 else (if AddsPatient(acts[0]) then 1 else 0) + Adds(acts[1..])
  }

  /** The attempt count rises by exactly the number of assessment starts. */
  lemma {:induction false} RunCountsAttempts(seed: Seed, s: State, acts: seq<Action>)
    requires Runnable(seed, s, acts)
    ensures Run(seed, s, acts).assessmentAttempts == s.assessmentAttempts + Starts(acts)
    decreases |acts|
  {
    if acts != [] {
      AttemptsStep(seed, s, acts[0]);
      RunCountsAttempts(seed, Reduce(seed, s, acts[0]), acts[1..]);
    }
  }

  /** Without a reset, no done cell is undone over a whole session. */
  lemma {:induction false} RunGrows(seed: Seed, s: State, acts: seq<Action>)
    requires Runnable(seed, s, acts)
    requires forall k :: 0 <= k < |acts| ==> !Resets(acts[k])
    ensures Grows(s.completedSandboxTasks, Run(seed, s, acts).completedSandboxTasks)
    decreases |acts|
  {
    if acts != [] {
      var s1 := Reduce(seed, s, acts[0]);
      GridGrows(seed, s, acts[0]);
      assert forall k :: 0 <= k < |acts[1..]| ==> !Resets(acts[1..][k]) by {
        forall k | 0 <= k < |acts[1..]| ensures !Resets(acts[1..][k]) {
          assert acts[1..][k] == acts[k + 1];
        }
      }
      RunGrows(seed, s1, acts[1..]);
    }
  }

  /** The grid keeps the shape of the initial one over a whole session. */
  lemma {:induction false} RunKeepsShape(seed: Seed, s: State, acts: seq<Action>)
    requires Runnable(seed, s, acts) && Shaped(s.completedSandboxTasks, StepCounts)
    ensures Shaped(Run(seed, s, acts).completedSandboxTasks, StepCounts)
    decreases |acts|
  {
    if acts != [] {
      GridKeepsShape(seed, s, acts[0]);
      RunKeepsShape(seed, Reduce(seed, s, acts[0]), acts[1..]);
    }
  }

  /** Patient ids stay distinct over a whole session when the seed's are. */
  lemma {:induction false} RunKeepsUniqueIds(seed: Seed, s: State, acts: seq<Action>)
    requires Runnable(seed, s, acts) && UniqueIds(s.patients) && UniqueIds(seed.seedPatients)
    ensures UniqueIds(Run(seed, s, acts).patients)
    decreases |acts|
  {
    if acts != [] {
      UniqueIdsPreserved(seed, s, acts[0]);
      RunKeepsUniqueIds(seed, Reduce(seed, s, acts[0]), acts[1..]);
    }
  }

  /** Without deletes and resets, the largest patient id after a session is
      the largest before plus the number of adds. */
  lemma {:induction false} RunMaxId(seed: Seed, s: State, acts: seq<Action>)
    requires Runnable(seed, s, acts)
    requires forall k :: 0 <= k < |acts| ==> !acts[k].DeletePatient? && !Resets(acts[k])
    ensures MaxId(Run(seed, s, acts).patients) == MaxId(s.patients) + Adds(acts)
    decreases |acts|
  {
    if acts != [] {
      MaxIdStep(seed, s, acts[0]);
      assert forall k :: 0 <= k < |acts[1..]| ==> !acts[1..][k].DeletePatient? && !Resets(acts[1..][k]) by {
        forall k | 0 <= k < |acts[1..]| ensures !acts[1..][k].DeletePatient? && !Resets(acts[1..][k]) {
          assert acts[1..][k] == acts[k + 1];
        }
      }
      RunMaxId(seed, Reduce(seed, s, acts[0]), acts[1..]);
    }
  }

  /** Without patient updates, deletes and resets, a whole session only
      appends patients, keeps every id in its place, and only appends to
      ledgers and charts. */
  lemma {:induction false} RunLedgersAndChartsGrow(seed: Seed, s: State, acts: seq<Action>)
    requires Runnable(seed, s, acts)
    requires forall k :: 0 <= k < |acts| ==>
               !acts[k].UpdatePatient? && !acts[k].DeletePatient? && !Resets(acts[k])
    ensures Extends(s.patients, Run(seed, s, acts).patients)
    decreases |acts|
  {
    if acts == [] {
      assert Extends(s.patients, s.patients);
    } else {
      var s1 := Reduce(seed, s, acts[0]);
      LedgersAndChartsGrow(seed, s, acts[0]);
      assert forall k :: 0 <= k < |acts[1..]| ==>
               !acts[1..][k].UpdatePatient? && !acts[1..][k].DeletePatient? && !Resets(acts[1..][k]) by {
        forall k | 0 <= k < |acts[1..]|
          ensures !acts[1..][k].UpdatePatient? && !acts[1..][k].DeletePatient? && !Resets(acts[1..][k])
        {
          assert acts[1..][k] == acts[k + 1];
        }
      }
      RunLedgersAndChartsGrow(seed, s1, acts[1..]);
      ExtendsTransitive(s.patients, s1.patients, Run(seed, s, acts).patients);
    }
  }

  /** A session from the initial state: the grid keeps its shape, ids stay
      distinct when the seed's are, and the attempt count is the number of
      assessment starts. */
  lemma SessionFromInitial(seed: Seed, acts: seq<Action>)
    requires Runnable(seed, Initial(seed), acts) && UniqueIds(seed.seedPatients)
    ensures var r := Run(seed, Initial(seed), acts);
      && Shaped(r.completedSandboxTasks, StepCounts)
      && UniqueIds(r.patients)
      && r.assessmentAttempts == Starts(acts)
  {
    RunKeepsShape(seed, Initial(seed), acts);
    RunKeepsUniqueIds(seed, Initial(seed), acts);
    RunCountsAttempts(seed, Initial(seed), acts);
  }
}
