/** What a plan is worth: the planner's verdicts are those of a full analysis, so the cheapest plan
    it returns really contains the attack. */
module Planning {
  import opened Model
  import opened Case
  import opened Exactness
  import opened Results
  import P = Planner

  /** Nothing is undecided or uncovered, and, unless Pods clash, nothing attainable in either view. */
  ghost predicate Contained(inp: Input)
    requires inp.st.api != []
  {
    && inp.gaps == [] && NothingUndecided(inp, EvidenceSupported, Full) && NothingUndecided(inp, ConservativePossible, Full)
    && (Sees(inp, ConservativePossible) ==> forall obj, view :: obj in inp.objectives ==> !Attainable(inp, view, obj))
  }

  /** The cluster's own legitimate operations work in the end. */
  predicate AllPreserved(inp: Input) {
    forall op :: op in inp.legit && !Created(op.pod) ==> Preserved(inp.st, Base(inp, |inp.actions|), op)
  }

  /** A verdict that is right about an input. */
  ghost predicate Right(inp: Input, v: P.Verdict)
    requires inp.st.api != []
  {
    (v.contained ==> Contained(inp)) && (v.contained && v.preserved ==> AllPreserved(inp))
  }

  /** The verdict of one full analysis. */
  method Judge(inp: Input) returns (v: P.Verdict)
    requires Plain(inp)
    ensures inp.st.api != [] && Right(inp, v)
  {
    hide Plain, NothingUndecided, Attainable, Preserved, ClashFree, WellFormed, Base;
    var b := Analyze(inp, Full);
    v := P.Verdict(b.conclusion.ContainedWithinScope?, forall i :: 0 <= i < |b.legit| ==> b.legit[i]);
    if v.contained && v.preserved {
      forall op | op in inp.legit && !Created(op.pod)
        ensures Preserved(inp.st, Base(inp, |inp.actions|), op)
      {
        var i :| 0 <= i < |inp.legit| && inp.legit[i] == op;
        assert b.legit[i];
      }
    }
  }

  /** The input with a sequence of candidates as its remediation. */
  function With(inp: Input, p: P.Problem, s: seq<nat>): Input
    requires P.Indices(p, s)
  {
    inp.(actions := P.ActionsOf(p, s))
  }

  /** The planner judges each sequence by analysing the input with it. */
  ghost predicate JudgesBy(inp: Input, p: P.Problem)
    requires inp.st.api != []
  {
    forall s :: P.Allowed(p, s) && s != [] ==> Right(With(inp, p, s), p.judge(P.ActionsOf(p, s)))
  }

  /** The plan returned contains the attack and keeps the legitimate operations, and no cheaper
      allowed sequence passes the analysis; a security-only plan at least contains it. */
  method PlanFor(inp: Input, p: P.Problem, maxEvaluations: int) returns (o: P.Outcome)
    requires inp.st.api != [] && p.NonNegative() && JudgesBy(inp, p)
    ensures o.NoCandidates? <==> p.cands == []
    ensures o.Planned? && o.plan.best.Some? ==>
      P.ValidPlan(p, o.plan.best.value) && forall s :: P.ValidPlan(p, s) ==> P.CostOf(p, o.plan.best.value) <= P.CostOf(p, s)
    ensures o.Planned? && o.plan.best.Some? ==>
      Contained(With(inp, p, o.plan.best.value)) && AllPreserved(With(inp, p, o.plan.best.value))
    ensures o.Planned? && o.plan.securityOnly.Some? ==> P.Contains(p, o.plan.securityOnly.value) && Contained(With(inp, p, o.plan.securityOnly.value))
  {
    hide Contained, AllPreserved;
    o := P.MakePlan(p, maxEvaluations);
    if o.Planned? && o.plan.best.Some? { assert Right(With(inp, p, o.plan.best.value), p.judge(P.ActionsOf(p, o.plan.best.value))); }
    if o.Planned? && o.plan.securityOnly.Some? {
      assert Right(With(inp, p, o.plan.securityOnly.value), p.judge(P.ActionsOf(p, o.plan.securityOnly.value)));
    }
  }
}
