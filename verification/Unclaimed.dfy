/** Pods known only from history: every witness rests on some evidence, and when none of it is
    among the input's direct claims the replay rejects a witness the engine emitted. */
module Unclaimed {
  import opened Model
  import opened Attack
  import opened Rules
  import opened Case
  import opened Interleavings
  import opened Exactness
  import opened Termination
  import opened Provenance
  import opened Replay
  import opened Witnesses
  import opened Story
  import opened Acceptance
  import opened ClashMisses
  import T = TwoHistories

  // ---------------------------------------------------------------- every goal has a witness

  lemma LeastLeft(left: set<Fact>, rank: map<Fact, nat>) returns (f: Fact)
    requires left != {} && forall g :: g in left ==> g in rank
    ensures f in left && forall g :: g in left ==> rank[f] <= rank[g]
    decreases |left|
  {
    f :| f in left;
    if g :| g in left && rank[g] < rank[f] {
      var rest := left - {f};
      f := LeastLeft(rest, rank);
    }
  }

  lemma AllListed(facts: map<Fact, Derivation>, rank: map<Fact, nat>) returns (steps: seq<Step>)
    requires Ranked(facts, rank)
    ensures FromTable(steps, facts) && Ordered(steps) && Distinct(steps) && FactsOf(steps) == facts.Keys
  {
    hide Ordered, Distinct, FactsOf;
    steps := [];
    var left := facts.Keys;
    NoneListed();
    while left != {}
      invariant left <= facts.Keys && FactsOf(steps) == facts.Keys - left
      invariant FromTable(steps, facts) && Ordered(steps) && Distinct(steps)
      decreases |left|
    {
      var f := LeastLeft(left, rank);
      var s := Step(f, facts[f]);
      OrderedPlus(steps, s);
      FactsPlus(steps, s);
      DistinctPlus(steps, s);
      steps := steps + [s];
      left := left - {f};
    }
  }

  lemma NoneListed()
    ensures FactsOf([]) == {} && Ordered([]) && Distinct([])
  {
  }

  lemma WitnessExists(inp: Input, view: Perspective, stages: seq<State>, goal: Fact) returns (steps: seq<Step>)
    requires WellFormed(inp) && EngineRun(inp, view, Full, stages) && |stages| == |inp.actions| + 1
    requires goal in stages[|inp.actions|].eph
    ensures Linear(stages[|inp.actions|].facts, stages[|inp.actions|].eph, goal, steps)
  {
    hide WellFormed, EngineRun, Ranked, Ordered, Distinct, FactsOf;
    var s := stages[|inp.actions|];
    var rank := RunRanked(inp, view, stages);
    var all := AllListed(s.facts, rank);
    var last := Step(goal, s.eph[goal]);
    OrderedPlus(all, last);
    DistinctPlus(all, last);
    steps := all + [last];
    assert steps[..|steps| - 1] == all;
  }

  // ---------------------------------------------------------------- what it rests on

  /** The first step of a witness rests on nothing before it: it is evidence. */
  lemma BeginsWithEvidence(inp: Input, view: Perspective, stages: seq<State>, goal: Fact, steps: seq<Step>)
    requires WellFormed(inp) && EngineRun(inp, view, Full, stages) && |stages| == |inp.actions| + 1
    requires goal in stages[|inp.actions|].eph && Linear(stages[|inp.actions|].facts, stages[|inp.actions|].eph, goal, steps)
    ensures steps != [] && steps[0].d.rule.Evidence? && steps[0].fact in EvidenceFacts(inp, view)
  {
    hide Ladder, StartsMain, Plain, Begins, Told, Backed, InputsUsed, Ordered, Distinct, FromTable, Endings, EvidenceFacts, SceneOf, Met;
    NonEmptyApi(inp);
    var n := |inp.actions|;
    var start :| StartsMain(inp, view, Full, start) && Ladder(inp, Now, start, stages);
    var first, rank0 := StartTold(inp, view, start);
    BeginsKeys(inp, view, start, first);
    var rank := StageTold(inp, view, start, stages, first, rank0, n);
    TableBacks(inp, view, first, stages, rank, goal, steps);
    FirstBacked(inp, view, steps, Endings(first, stages), stages[n].creds);
  }

  lemma FirstBacked(inp: Input, view: Perspective, steps: seq<Step>, envs: map<int, Env>, creds: map<CredId, Cred>)
    requires steps != [] && Ordered(steps) && Backed(inp, view, steps, envs, creds)
    ensures steps[0].d.rule.Evidence? && steps[0].fact in EvidenceFacts(inp, view)
  {
    hide Met, EvidenceFacts;
    var d := steps[0].d;
    assert PremisesFirst(steps, 0) && StepBacked(inp, view, steps[0], envs, creds);
    if !d.rule.Evidence? { NoPremises(steps, d.premises[0]); }
  }

  lemma NoPremises(steps: seq<Step>, p: Fact)
    requires steps != [] && PremisesFirst(steps, 0)
    ensures p !in steps[0].d.premises
  {
  }

  /** When no direct claim counts in the view, every attack found rests on history alone, and the
      replay accepts the witness of none of its goals. */
  lemma NothingClaimedFails(inp: Input, view: Perspective, stages: seq<State>, goal: Fact, steps: seq<Step>)
    requires WellFormed(inp) && Replayable(inp) && InitialFacts(inp, view, Full) == {}
    requires EngineRun(inp, view, Full, stages) && |stages| == |inp.actions| + 1
    requires goal in stages[|inp.actions|].eph && Linear(stages[|inp.actions|].facts, stages[|inp.actions|].eph, goal, steps)
    ensures !Replays(inp, view, steps, goal)
  {
    hide Plain, Replayable, Replays, EngineRun, Linear, EvidenceFacts;
    BeginsWithEvidence(inp, view, stages, goal, steps);
    WitnessReplays(inp, view, stages, goal, steps);
    assert steps[0] in steps;
    NotClaimed(inp, view, steps[0].fact);
  }

  lemma NotClaimed(inp: Input, view: Perspective, f: Fact)
    requires InitialFacts(inp, view, Full) == {}
    ensures !DirectlyClaimed(inp, view, f)
  {
    hide InitialFacts;
    forall i | 0 <= i < |inp.facts|
      ensures !Kept(inp.facts[i], view, Full)
    {
      KeptIsInitial(inp, view, i);
    }
  }

  lemma KeptIsInitial(inp: Input, view: Perspective, i: nat)
    requires i < |inp.facts|
    ensures Kept(inp.facts[i], view, Full) ==> FactOf(inp.facts[i].claim) in InitialFacts(inp, view, Full)
  {
    assert inp.facts[i] in inp.facts;
  }

  // ---------------------------------------------------------------- such an input

  const CASE := T.CaseOf([Historical(T.U, T.B, Observed)])
  const GOAL := CanUseDownstream(T.D)

  lemma CaseIsReplayable()
    ensures WellFormed(CASE) && Replayable(CASE) && InitialFacts(CASE, ConservativePossible, Full) == {}
  {
  }

  lemma OneStage(stages: seq<State>)
    requires EngineRun(CASE, ConservativePossible, Full, stages)
    ensures |stages| == 1
  {
    hide StartsMain, Saturates;
  }

  lemma GoalReported() returns (stages: seq<State>)
    ensures EngineRun(CASE, ConservativePossible, Full, stages) && |stages| == 1 && GOAL in stages[0].eph
  {
    hide WellFormed, Parsed, EngineRun, ClashFree, Attainable, Replayable, InitialFacts;
    CaseIsReplayable();
    CaseParses(CASE);
    stages := RunExists(CASE, ConservativePossible, Full);
    T.CaseClashFree(CASE.historical);
    T.AttackWorks(CASE.historical);
    AllReported(CASE, ConservativePossible, stages);
    assert Reported(CASE, stages, NoDownstreamUse(T.D));
    OneStage(stages);
  }

  /** A Pod known only from history: the engine reports what its token was good for, and the replay
      objects to the engine's own witness. */
  lemma HistoryAloneFails() returns (stages: seq<State>, steps: seq<Step>)
    ensures WellFormed(CASE) && Replayable(CASE) && EngineRun(CASE, ConservativePossible, Full, stages)
    ensures |stages| == 1 && GOAL in stages[0].eph && Linear(stages[0].facts, stages[0].eph, GOAL, steps)
    ensures !Replays(CASE, ConservativePossible, steps, GOAL)
  {
    hide WellFormed, Parsed, Replayable, Replays, EngineRun, Linear, ClashFree, HistoryGain, Run, Violated, InitialFacts, Attainable;
    CaseIsReplayable();
    stages := GoalReported();
    steps := WitnessExists(CASE, ConservativePossible, stages, GOAL);
    NothingClaimedFails(CASE, ConservativePossible, stages, GOAL, steps);
  }
}
