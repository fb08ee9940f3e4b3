/** Reading a witness off the derivation tables (packages/afterlock/engine.py, `witness`). */
module Witnesses {
  import opened Rules
  import opened Provenance
  import opened Replay

  ghost predicate Distinct(steps: seq<Step>) {
    forall j, k :: 0 <= j < k < |steps| ==> steps[j].fact != steps[k].fact
  }

  ghost predicate Ordered(steps: seq<Step>) {
    forall k :: 0 <= k < |steps| ==> PremisesFirst(steps, k)
  }

  ghost predicate FromTable(steps: seq<Step>, facts: map<Fact, Derivation>) {
    forall s :: s in steps ==> s.fact in facts && facts[s.fact] == s.d
  }

  /** A complete witness: every fact once, after its premises, as the tables record it; the goal last. */
  ghost predicate Linear(facts: map<Fact, Derivation>, goals: map<Fact, Derivation>, goal: Fact, steps: seq<Step>)
    requires goal in goals
  {
    && steps != [] && steps[|steps| - 1] == Step(goal, goals[goal]) && goal !in facts
    && FromTable(steps[..|steps| - 1], facts) && Ordered(steps) && Distinct(steps)
  }

  lemma PremisesStay(a: seq<Step>, b: seq<Step>, k: nat)
    requires k < |a| && PremisesFirst(a, k)
    ensures PremisesFirst(a + b, k)
  {
    assert (a + b)[..k] == a[..k];
  }

  lemma OrderedPlus(steps: seq<Step>, s: Step)
    requires Ordered(steps) && forall p :: p in s.d.premises ==> p in FactsOf(steps)
    ensures Ordered(steps + [s])
  {
    forall k | 0 <= k < |steps + [s]|
      ensures PremisesFirst(steps + [s], k)
    {
      if k < |steps| { PremisesStay(steps, [s], k); } else { assert (steps + [s])[..k] == steps; }
    }
  }

  lemma FactsPlus(steps: seq<Step>, s: Step)
    ensures FactsOf(steps + [s]) == FactsOf(steps) + {s.fact}
  {
    OneMoreEstablished(steps + [s], |steps|);
    assert (steps + [s])[..|steps|] == steps && (steps + [s])[..|steps| + 1] == steps + [s];
  }

  lemma DistinctPlus(steps: seq<Step>, s: Step)
    requires Distinct(steps) && s.fact !in FactsOf(steps)
    ensures Distinct(steps + [s])
  {
    assert forall j :: 0 <= j < |steps| ==> steps[j] in steps;
  }

  lemma FactsOfLonger(a: seq<Step>, b: seq<Step>)
    requires a <= b
    ensures FactsOf(a) <= FactsOf(b)
  {
    forall f | f in FactsOf(a)
      ensures f in FactsOf(b)
    {
      var s :| s in a && s.fact == f;
      assert s in b;
    }
  }

  class Tracer {
    const facts: map<Fact, Derivation>
    var seen: set<Fact>
    var steps: seq<Step>

    constructor (facts: map<Fact, Derivation>)
      ensures this.facts == facts && seen == {} && steps == []
    {
      this.facts := facts;
      seen, steps := {}, [];
    }

    /** Facts being visited whose premises are not all placed yet. */
    ghost function Open(): set<Fact>
      reads this
    {
      seen - FactsOf(steps)
    }

    ghost predicate Valid(rank: map<Fact, nat>)
      reads this
    {
      && Ranked(facts, rank) && FactsOf(steps) <= seen && Ordered(steps) && Distinct(steps) && FromTable(steps, facts)
      && forall g :: g in Open() ==> g in rank
    }

    /** Places the premises of `f` before `f`, unless it is placed already. */
    method Visit(f: Fact, ghost rank: map<Fact, nat>)
      requires Valid(rank) && f in facts && forall g :: g in Open() ==> rank[g] > rank[f]
      modifies this
      ensures Valid(rank) && f in FactsOf(steps) && old(steps) <= steps && Open() == old(Open())
      decreases rank[f]
    {
      hide PremisesFirst, FactsOf;
      if f in seen { return; }
      ghost var open := Open();
      seen := seen + {f};
      assert Open() == open + {f};
      VisitAll(f, facts[f], rank);
      assert Open() == open + {f};
      FactsPlus(steps, Step(f, facts[f]));
      OrderedPlus(steps, Step(f, facts[f]));
      DistinctPlus(steps, Step(f, facts[f]));
      steps := steps + [Step(f, facts[f])];
      assert Open() == open;
    }

    /** Visits the premises of `d`, a derivation of the open fact `f`. */
    method VisitAll(f: Fact, d: Derivation, ghost rank: map<Fact, nat>)
      requires Valid(rank) && f in rank && f in Open() && forall g :: g in Open() ==> rank[g] >= rank[f]
      requires forall p :: p in d.premises ==> p in facts && rank[p] < rank[f]
      modifies this
      ensures Valid(rank) && old(steps) <= steps && Open() == old(Open())
      ensures forall p :: p in d.premises ==> p in FactsOf(steps)
      decreases rank[f], 0
    {
      hide PremisesFirst, FactsOf;
      for i := 0 to |d.premises|
        invariant Valid(rank) && old(steps) <= steps && Open() == old(Open())
        invariant forall p :: p in d.premises[..i] ==> p in FactsOf(steps)
      {
        ghost var before := steps;
        Visit(d.premises[i], rank);
        FactsOfLonger(before, steps);
        assert d.premises[..i + 1] == d.premises[..i] + [d.premises[i]];
      }
      assert d.premises[..|d.premises|] == d.premises;
    }
  }

  /** The witness of a goal of the final interval. */
  method Witness(facts: map<Fact, Derivation>, goals: map<Fact, Derivation>, goal: Fact, ghost rank: map<Fact, nat>) returns (steps: seq<Step>)
    requires Ranked(facts, rank) && goal in goals && goal !in facts
    requires forall p :: p in goals[goal].premises ==> p in facts
    ensures Linear(facts, goals, goal, steps)
  {
    hide PremisesFirst, FactsOf;
    var tracer := new Tracer(facts);
    var d := goals[goal];
    ghost var above := rank[goal := MaxRank(d.premises, rank) + 1];
    EmptyFacts();
    tracer.seen := {goal};
    tracer.VisitAll(goal, d, above);
    NotInTable(tracer.steps, facts, goal);
    OrderedPlus(tracer.steps, Step(goal, d));
    DistinctPlus(tracer.steps, Step(goal, d));
    steps := tracer.steps + [Step(goal, d)];
    assert steps[..|steps| - 1] == tracer.steps;
  }

  lemma EmptyFacts()
    ensures FactsOf([]) == {}
  {
  }

  lemma NotInTable(steps: seq<Step>, facts: map<Fact, Derivation>, goal: Fact)
    requires FromTable(steps, facts) && goal !in facts
    ensures goal !in FactsOf(steps)
  {
  }
}
