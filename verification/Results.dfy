/** Assembly of an analysis result from the two views (packages/afterlock/results.py): what each
    status and the overall conclusion say about the interleavings of the real attacker model. */
module Results {
  import opened Model
  import opened Semantics
  import opened Attack
  import opened Rules
  import opened Shape
  import opened Fixpoint
  import opened Case
  import opened Interleavings
  import opened Exactness
  import opened Tenure
  import opened EngineStatus
  import opened Engine

  datatype ObjectiveStatus = StatusViolated | StatusPossiblyViolated | StatusUnknown | StatusSatisfied

  datatype Conclusion = ResidualPath | ContainedWithinScope | Undetermined

  datatype Bundle = Bundle(
    statuses: seq<ObjectiveStatus>, conclusion: Conclusion, legit: seq<bool>, exhausted: bool,
    missing: nat, exposure: seq<IntervalRecord>)

  // ---------------------------------------------------------------- legitimate operations

  /** The Pod's service account may still get the Secret, and all three exist. */
  predicate LegitCanRead(st: Static, e: Env, pod: Uid, key: SecretKey) {
    && pod in e.pods && e.pods[pod].Acct() in e.sas && key in e.secrets
    && Authorized(st, e.bindings, SaUser(e.pods[pod].Acct()), "get", "secrets", key.ns, Some(key.name))
  }

  predicate LegitCanUse(st: Static, e: Env, pod: Uid, service: string) {
    && service in e.services
    && LegitCanRead(st, e, pod, e.services[service].source)
    && e.secrets[e.services[service].source] == e.services[service].accepted
  }

  predicate Preserved(st: Static, e: Env, op: LegitOp) {
    match op.kind
    case MayReadSecret(key) => LegitCanRead(st, e, op.pod, key)
    case MayUseService(service) => LegitCanUse(st, e, op.pod, service)
  }

  /** An operation reported as preserved really works: a token freshly issued to the Pod is
      accepted, may read the Secret, and (for a service) the version read is accepted. */
  lemma PreservedWorks(st: Static, e: Env, op: LegitOp)
    requires st.Valid() && Preserved(st, e, op)
    ensures op.pod in e.pods && e.pods[op.pod].Acct() in e.sas
    ensures var t := Token(st, e, op.pod, st.api[0]);
      && CanUse(st, e, t, Now)
      && match op.kind
         case MayReadSecret(key) => key in e.secrets && CanRead(st, e.bindings, t.user, key)
         case MayUseService(service) =>
           && service in e.services && e.services[service].source in e.secrets
           && CanRead(st, e.bindings, t.user, e.services[service].source)
           && e.services[service].Accepts(e.secrets[e.services[service].source], e.time)
  {
  }

  // ---------------------------------------------------------------- one objective

  function StatusOf(goal: Fact, ev: Outcome, pv: Outcome, undecided: bool): ObjectiveStatus {
    if goal in ev.goals then StatusViolated
    else if goal in pv.goals then StatusPossiblyViolated
    else if undecided then StatusUnknown
    else StatusSatisfied
  }

  function Conclude(statuses: seq<ObjectiveStatus>): Conclusion {
    if StatusViolated in statuses || StatusPossiblyViolated in statuses then ResidualPath
    else if StatusUnknown in statuses then Undetermined
    else ContainedWithinScope
  }

  // ---------------------------------------------------------------- what a result claims

  /** In every interval of this view's run, and in its history, no credential held was of an
      unsupported kind and no workload the attacker could request met an undecidable admission
      policy. */
  ghost predicate NothingUndecided(inp: Input, view: Perspective, mode: Mode)
    requires inp.st.api != []
  {
    exists start, stages :: UndecidedNowhere(inp, view, mode, start, stages)
  }

  ghost predicate UndecidedNowhere(inp: Input, view: Perspective, mode: Mode, start: State, stages: seq<State>)
    requires inp.st.api != []
  {
    && StartsMain(inp, view, mode, start) && Ladder(inp, MainRule(mode), start, stages)
    && NotedThroughout(inp, MainRule(mode), stages, {}) && HistoryNoted(inp, view, mode, start, {})
  }

  /** Every goal of a finished view is attainable, whatever input the parser accepted (full mode). */
  lemma GoalsAreReal(inp: Input, view: Perspective, r: Outcome, obj: Objective)
    requires Parsed(inp) && inp.st.api != [] && Finished(inp, view, Full, r) && Goal(obj) in r.goals
    ensures Attainable(inp, view, obj)
  {
    hide EngineRun, Parsed, HistoryGain, Run, Violated, Reconcile, Finished;
    var stages := FinishedRun(inp, view, Full, r);
    var a, moves := EngineComplete(inp, view, stages);
    assert AttainedBy(inp, view, a, moves, obj);
  }

  /** Without clashes a finished view's goals are exactly the attainable objectives. */
  lemma GoalsAreAttainable(inp: Input, view: Perspective, r: Outcome, obj: Objective)
    requires WellFormed(inp) && inp.st.api != [] && ClashFree(inp, view) && Finished(inp, view, Full, r)
    ensures Goal(obj) in r.goals <==> Attainable(inp, view, obj)
  {
    hide EngineRun, Parsed, HistoryGain, Run, Violated, Reconcile, Finished, ClashFree;
    if Goal(obj) in r.goals { GoalsAreReal(inp, view, r, obj); }
    if Attainable(inp, view, obj) {
      var stages := FinishedRun(inp, view, Full, r);
      var a, moves :| AttainedBy(inp, view, a, moves, obj);
      EngineSound(inp, view, Full, stages, a, moves, obj);
    }
  }

  lemma AllGoalsAttainable(inp: Input, view: Perspective, r: Outcome)
    requires Parsed(inp) && inp.st.api != [] && Finished(inp, view, Full, r)
    ensures forall obj :: Goal(obj) in r.goals ==> Attainable(inp, view, obj)
    ensures WellFormed(inp) && ClashFree(inp, view) ==> forall obj :: Attainable(inp, view, obj) ==> Goal(obj) in r.goals
  {
    hide Parsed, Finished, Attainable, ClashFree;
    forall obj | Goal(obj) in r.goals
      ensures Attainable(inp, view, obj)
    {
      GoalsAreReal(inp, view, r, obj);
    }
    if WellFormed(inp) && ClashFree(inp, view) {
      forall obj | Attainable(inp, view, obj)
        ensures Goal(obj) in r.goals
      {
        GoalsAreAttainable(inp, view, r, obj);
      }
    }
  }

  /** Without clashes the lifecycle-blind baseline never misses an attainable objective either. */
  lemma BlindGoalsCover(inp: Input, view: Perspective, r: Outcome, obj: Objective)
    requires WellFormed(inp) && inp.st.api != [] && ClashFree(inp, view)
    requires Finished(inp, view, WithoutLifecycle, r) && Attainable(inp, view, obj)
    ensures Goal(obj) in r.goals
  {
    hide EngineRun, Parsed, HistoryGain, Run, Violated, Reconcile, Finished, ClashFree;
    var stages := FinishedRun(inp, view, WithoutLifecycle, r);
    var a, moves :| AttainedBy(inp, view, a, moves, obj);
    EngineSound(inp, view, WithoutLifecycle, stages, a, moves, obj);
  }

  lemma AllBlindGoals(inp: Input, view: Perspective, r: Outcome)
    requires WellFormed(inp) && inp.st.api != [] && ClashFree(inp, view) && Finished(inp, view, WithoutLifecycle, r)
    ensures forall obj :: Attainable(inp, view, obj) ==> Goal(obj) in r.goals
  {
    hide Parsed, Finished, Attainable, ClashFree;
    forall obj | Attainable(inp, view, obj)
      ensures Goal(obj) in r.goals
    {
      BlindGoalsCover(inp, view, r, obj);
    }
  }

  /** What the caller can check for the engine to miss nothing in a view. */
  ghost predicate Sees(inp: Input, view: Perspective) {
    WellFormed(inp) && ClashFree(inp, view)
  }

  lemma EvidenceSees(inp: Input)
    requires Sees(inp, ConservativePossible)
    ensures Sees(inp, EvidenceSupported)
  {
    hide HistoryEnv, Clashes, Plain, Base;
    ValidStatic(inp);
    assert !HistoryRuns(inp, EvidenceSupported, Full);
    forall i, j, u | 0 <= i < j <= |inp.actions|
      ensures !Clashes(inp.st, Era(inp, EvidenceSupported, i), Era(inp, EvidenceSupported, j), u)
    {
      assert !Clashes(inp.st, Era(inp, ConservativePossible, i), Era(inp, ConservativePossible, j), u);
    }
  }

  // ---------------------------------------------------------------- legitimate operations in the end

  /** What the attacker created does not bear on a legitimate operation of a Pod of the cluster. */
  lemma LegitUndisturbed(inp: Input, view: Perspective, mode: Mode, r: Outcome, op: LegitOp)
    requires Plain(inp) && inp.st.api != [] && Finished(inp, view, mode, r) && !Created(op.pod)
    ensures Preserved(inp.st, r.finalEnv, op) <==> Preserved(inp.st, Base(inp, |inp.actions|), op)
  {
    hide Good, StartsMain, Ladder, Reconcile, Plain, HistoryNoted, NotedThroughout, RecordsOf, Authorized;
    var start, stages :| FinishedBy(inp, view, mode, r, start, stages);
    var n := |inp.actions|;
    StartGood(inp, view, mode, start);
    LadderGood(inp, MainRule(mode), start, stages, n);
    ReconcileIdempotent(Base(inp, n));
    var e := r.finalEnv;
    assert Native(e) == Base(inp, n);
    assert op.pod in e.pods <==> op.pod in Native(e).pods;
  }

  // ---------------------------------------------------------------- analyze

  /** Analyses one input. In full mode, within bounds: an objective reported violated, or possibly
      violated, is attainable in that view; when no two Pods clash the converse holds too, so the
      statuses say exactly which view attains what. Containment is concluded only when nothing
      was undecided and no coverage gap is open. */
  method Analyze(inp: Input, mode: Mode) returns (b: Bundle)
    requires Plain(inp)
    ensures inp.st.api != []
    ensures |b.statuses| == |inp.objectives| && |b.legit| == |inp.legit| && b.conclusion == Conclude(b.statuses)
    ensures mode.Full? && b.exhausted ==> forall i :: 0 <= i < |inp.objectives| ==>
      && (b.statuses[i] == StatusViolated ==> Attainable(inp, EvidenceSupported, inp.objectives[i]))
      && (b.statuses[i] == StatusPossiblyViolated ==> Attainable(inp, ConservativePossible, inp.objectives[i]))
    ensures mode.Full? && b.exhausted && Sees(inp, ConservativePossible) ==> forall i :: 0 <= i < |inp.objectives| ==>
      && (b.statuses[i] == StatusViolated <==> Attainable(inp, EvidenceSupported, inp.objectives[i]))
      && (b.statuses[i] == StatusPossiblyViolated <==>
            !Attainable(inp, EvidenceSupported, inp.objectives[i]) && Attainable(inp, ConservativePossible, inp.objectives[i]))
    ensures !b.exhausted || inp.gaps != [] ==> StatusSatisfied !in b.statuses
    ensures (mode.Full? || mode.WithoutLifecycle?) && StatusSatisfied in b.statuses ==>
      && b.exhausted && inp.gaps == []
      && NothingUndecided(inp, EvidenceSupported, mode) && NothingUndecided(inp, ConservativePossible, mode)
    ensures (mode.Full? || mode.WithoutLifecycle?) && Sees(inp, ConservativePossible) ==> forall i :: 0 <= i < |inp.objectives| && b.statuses[i] == StatusSatisfied ==>
      !Attainable(inp, EvidenceSupported, inp.objectives[i]) && !Attainable(inp, ConservativePossible, inp.objectives[i])
    ensures mode.Full? && b.conclusion.ContainedWithinScope? ==>
      && b.exhausted && inp.gaps == []
      && NothingUndecided(inp, EvidenceSupported, mode) && NothingUndecided(inp, ConservativePossible, mode)
      && (Sees(inp, ConservativePossible) ==> forall obj, view :: obj in inp.objectives ==> !Attainable(inp, view, obj))
    ensures mode.Full? && b.exhausted && b.conclusion.ResidualPath? ==>
      exists obj, view :: obj in inp.objectives && Attainable(inp, view, obj)
    ensures (mode.Full? || mode.WithoutLifecycle?) && b.exhausted ==> forall i :: 0 <= i < |inp.legit| && !Created(inp.legit[i].pod) ==>
      (b.legit[i] <==> Preserved(inp.st, Base(inp, |inp.actions|), inp.legit[i]))
  {
    hide Parsed, NothingReserved, OwnIds, OneHistory, Finished, BaselineRun, Attainable, NothingUndecided, Preserved, ClashFree;
    NonEmptyApi(inp);
    var ev := RunView(inp, EvidenceSupported, mode);
    var pv := RunView(inp, ConservativePossible, mode);
    var unknowns := ev.unknowns + pv.unknowns;
    var exhausted := !(ev.boundsExceeded || pv.boundsExceeded);
    var missing := |inp.gaps| + |unknowns| + (if ev.boundsExceeded then 1 else 0) + (if pv.boundsExceeded then 1 else 0);
    var statuses := [];
    for i := 0 to |inp.objectives|
      invariant |statuses| == i
      invariant forall j :: 0 <= j < i ==> statuses[j] == StatusOf(Goal(inp.objectives[j]), ev, pv, missing > 0)
    {
      statuses := statuses + [StatusOf(Goal(inp.objectives[i]), ev, pv, missing > 0)];
    }
    var legit := [];
    for i := 0 to |inp.legit|
      invariant |legit| == i
      invariant forall j :: 0 <= j < i ==> legit[j] == Preserved(inp.st, ev.finalEnv, inp.legit[j])
    {
      legit := legit + [Preserved(inp.st, ev.finalEnv, inp.legit[i])];
    }
    b := Bundle(statuses, Conclude(statuses), legit, exhausted, missing, ev.intervals);
    if Sees(inp, ConservativePossible) { EvidenceSees(inp); }
    if exhausted && mode.Full? {
      PlainParses(inp);
      AllGoalsAttainable(inp, EvidenceSupported, ev);
      AllGoalsAttainable(inp, ConservativePossible, pv);
    }
    if exhausted && mode.WithoutLifecycle? && Sees(inp, ConservativePossible) {
      AllBlindGoals(inp, EvidenceSupported, ev);
      AllBlindGoals(inp, ConservativePossible, pv);
    }
    if exhausted && (mode.Full? || mode.WithoutLifecycle?) {
      forall i | 0 <= i < |inp.legit| && !Created(inp.legit[i].pod)
        ensures legit[i] <==> Preserved(inp.st, Base(inp, |inp.actions|), inp.legit[i])
      {
        LegitUndisturbed(inp, EvidenceSupported, mode, ev, inp.legit[i]);
      }
    }
    if missing == 0 && (mode.Full? || mode.WithoutLifecycle?) {
      NothingNoted(inp, EvidenceSupported, mode, ev);
      NothingNoted(inp, ConservativePossible, mode, pv);
    }
    ContainedStatuses(statuses);
    if mode.Full? && b.conclusion.ContainedWithinScope? {
      SomeObjective(inp);
      assert statuses[0] in statuses;
      if Sees(inp, ConservativePossible) { NoneAttainable(inp, statuses); }
    }
  }

  lemma SomeObjective(inp: Input)
    requires Plain(inp)
    ensures inp.objectives != []
  {
  }

  lemma NoneAttainable(inp: Input, statuses: seq<ObjectiveStatus>)
    requires inp.st.api != [] && |statuses| == |inp.objectives| && forall i :: 0 <= i < |statuses| ==> statuses[i] == StatusSatisfied
    requires forall i :: 0 <= i < |inp.objectives| && statuses[i] == StatusSatisfied ==>
      !Attainable(inp, EvidenceSupported, inp.objectives[i]) && !Attainable(inp, ConservativePossible, inp.objectives[i])
    ensures forall obj, view :: obj in inp.objectives ==> !Attainable(inp, view, obj)
  {
    hide Attainable;
    forall obj, view: Perspective | obj in inp.objectives
      ensures !Attainable(inp, view, obj)
    {
      var i :| 0 <= i < |inp.objectives| && inp.objectives[i] == obj;
      assert statuses[i] == StatusSatisfied;
      assert view.EvidenceSupported? || view.ConservativePossible?;
    }
  }

  lemma NothingNoted(inp: Input, view: Perspective, mode: Mode, r: Outcome)
    requires inp.st.api != [] && r.unknowns == {} && Finished(inp, view, mode, r)
    ensures NothingUndecided(inp, view, mode)
  {
    hide StartsMain, Ladder, AllNoted, HistoryNoted, NotedThroughout;
    var start, stages :| FinishedBy(inp, view, mode, r, start, stages);
    assert UndecidedNowhere(inp, view, mode, start, stages);
  }

  lemma ContainedStatuses(statuses: seq<ObjectiveStatus>)
    ensures Conclude(statuses).ContainedWithinScope? <==> forall i :: 0 <= i < |statuses| ==> statuses[i] == StatusSatisfied
  {
    forall i | 0 <= i < |statuses|
      ensures statuses[i] in statuses
    {
    }
  }
}
