/** The possible-history phase adds nothing when there is nothing historical: without historical
    Pods and expired seed credentials, whatever a history could have given, the attacker can still
    obtain now. */
module HistoryPhase {
  import opened Model
  import opened Semantics
  import opened Attack
  import opened Rules
  import opened Shape
  import opened Cover
  import opened Fixpoint
  import opened Case
  import opened Interleavings
  import opened Tenure
  import opened Exactness
  import opened Agreement

  /** No credential held has expired. */
  predicate Unexpired(w: World) {
    forall c :: c in w.att.creds ==> c.expires.None? || w.env.time < c.expires.value
  }

  lemma UseIsNow(st: Static, e: Env, c: Cred, start: Option<int>)
    requires CanUse(st, e, c, Window(start)) && (c.expires.None? || e.time < c.expires.value)
    ensures CanUse(st, e, c, Now)
  {
    var t :| (start.None? || start.value <= t) && t <= e.time && CredentialUsable(st, e, c, t).Usable?;
  }

  lemma EnabledNow(st: Static, w: World, act: Act, start: Option<int>)
    requires st.api != [] && Unexpired(w) && Enabled(st, Window(start), w, act)
    ensures Enabled(st, Now, w, act)
  {
    hide CredentialUsable, MayExec, MayCreate, CanRead, Authorized;
    match act {
      case Read(c, _) => UseIsNow(st, w.env, c, start);
      case Exec(c, _) => UseIsNow(st, w.env, c, start);
      case NewPod(c, _, _) => UseIsNow(st, w.env, c, start);
      case NewCtrl(c, _, _, _) => UseIsNow(st, w.env, c, start);
      case _ =>
    }
  }

  lemma StaysUnexpired(st: Static, w: World, act: Act)
    requires st.Valid() && Unexpired(w)
    ensures Unexpired(Do(st, w, act))
  {
    hide Reconcile, Text;
    if act.NewCtrl? { ReconcileOnlyPods(Unreconciled(w.env, act.account, act.uid, act.fromZero)); }
  }

  /** With nothing expired, a history is a run of today. */
  lemma {:induction false} HistoryIsNow(st: Static, start: Option<int>, w: World, acts: seq<Act>)
    requires st.Valid() && Unexpired(w) && RunActs(st, Window(start), w, acts).Some?
    ensures RunActs(st, Now, w, acts) == RunActs(st, Window(start), w, acts) && Unexpired(RunActs(st, Now, w, acts).value)
  {
    hide Enabled, Do, Unexpired;
    if acts != [] {
      HistoryIsNow(st, start, w, acts[..|acts| - 1]);
      var m := RunActs(st, Now, w, acts[..|acts| - 1]).value;
      EnabledNow(st, m, acts[|acts| - 1], start);
      StaysUnexpired(st, m, acts[|acts| - 1]);
    }
  }

  lemma SeedsUnexpired(inp: Input)
    requires WellFormed(inp) && !HistoryRuns(inp, ConservativePossible, Full)
    ensures Unexpired(HistoryWorld(inp, ConservativePossible))
    ensures HistoryEnv(inp, ConservativePossible, Full).pods == inp.env.pods
    ensures HistoryEnv(inp, ConservativePossible, Full) == inp.env
    ensures HistoryWorld(inp, ConservativePossible) == World(inp.env, View(InitialState(inp, ConservativePossible, Full)).att)
  {
    var s, t := InitialState(inp, ConservativePossible, Full), HistoryStart(inp, ConservativePossible, Full);
    assert HistoricalFacts(inp, ConservativePossible, Full) == {};
    assert t.facts == s.facts;
    assert HistoryEnv(inp, ConservativePossible, Full).pods == inp.env.pods;
  }

  lemma ReconciledOverlies(e: Env)
    ensures Underlies(e, Reconcile(e))
  {
    hide Reconcile;
    ReconcileKeepsPods(e);
    ReconcileOnlyPods(e);
    ReconcileTwice(e);
  }

  /** Everything in `a` was held in some history, run although nothing is historical. */
  ghost predicate GainedAnyway(inp: Input, a: Att)
    requires inp.st.api != []
  {
    && (forall c :: c in a.creds ==> exists w :: HistoryReach(inp, ConservativePossible, w) && c in w.att.creds)
    && (forall u :: u in a.pods ==> exists w :: HistoryReach(inp, ConservativePossible, w) && u in w.att.pods)
    && (forall c :: c in a.ctrls ==> exists w :: HistoryReach(inp, ConservativePossible, w) && c in w.att.ctrls)
    && (forall k :: k in a.know ==> exists w :: HistoryReach(inp, ConservativePossible, w) && k in w.att.know)
  }

  lemma GainedCovered(inp: Input, a: Att, big: Att)
    requires inp.st.api != [] && GainedAnyway(inp, a)
    requires forall w :: HistoryReach(inp, ConservativePossible, w) ==> CoversAtt(inp.st, w.att, big)
    ensures CoversAtt(inp.st, a, big)
  {
    hide HistoryReach;
  }

  /** A saturated first interval covers every history. */
  lemma HistoryCoveredToday(inp: Input, big: World, w: World)
    requires WellFormed(inp) && inp.st.api != [] && !HistoryRuns(inp, ConservativePossible, Full) && HistoryReach(inp, ConservativePossible, w)
    requires Rung(inp, 0, big)
    requires Grows(inp.st, World(Reconcile(inp.env), View(InitialState(inp, ConservativePossible, Full)).att), big)
    ensures CoversAtt(inp.st, w.att, big.att)
  {
    hide EnvInv, RunActs, Saturated, HistoryStart, Reconcile, InitialState, HistoryRuns, Underlies, CoversAtt, CoversEnv, Grows;
    var a := View(InitialState(inp, ConservativePossible, Full)).att;
    SeedsUnexpired(inp);
    HistoryEnvGood(inp, ConservativePossible, Full);
    var acts := HistoryActs(inp, ConservativePossible, w);
    HistoryIsNow(inp.st, inp.historyStart, HistoryWorld(inp, ConservativePossible), acts);
    ReconciledOverlies(inp.env);
    WithinCovers(inp.st, a, a);
    NativeStarts(inp, a);
    CoversThenGrows(inp.st, World(inp.env, a), World(Reconcile(inp.env), a), big);
    ActsCoveredOver(inp.st, Now, Now, inp.env, Reconcile(inp.env), World(inp.env, a), big, acts);
    AttOf(inp.st, w, big);
  }

  lemma AttOf(st: Static, w: World, big: World)
    requires Covers(st, w, big)
    ensures CoversAtt(st, w.att, big.att)
  {
  }

  lemma NativeStarts(inp: Input, a: Att)
    requires WellFormed(inp) && CoversAtt(inp.st, a, a)
    ensures Covers(inp.st, World(inp.env, a), World(Reconcile(inp.env), a))
  {
    hide Reconcile, CoversAtt, NativeAction;
  }

  /** Running the phase although it has nothing to add changes no verdict. */
  lemma HistoryAddsNothing(inp: Input, a: Att, theirs: seq<Move>, obj: Objective)
    requires WellFormed(inp) && inp.st.api != [] && !HistoryRuns(inp, ConservativePossible, Full) && GainedAnyway(inp, a)
    requires var s := Run(inp.st, Now, inp.actions, Stage(0, World(Reconcile(inp.env), a)), theirs);
      s.Some? && s.value.phase == |inp.actions| && Violated(inp.st, Now, s.value.world, obj)
    ensures Attainable(inp, ConservativePossible, obj)
  {
    hide RefRun, Run, Violated, Reconcile, Grows, CoversAtt, HistoryReach, InitialState, HistoryRuns, GainedAnyway, Rung;
    var n := |inp.actions|;
    var g := View(InitialState(inp, ConservativePossible, Full)).att;
    var moves, bigs := RefLadder(inp, 1, g, n);
    RungsAreLadder(inp, bigs);
    forall w | HistoryReach(inp, ConservativePossible, w)
      ensures CoversAtt(inp.st, w.att, bigs[0].att)
    {
      HistoryCoveredToday(inp, bigs[0], w);
    }
    GainedCovered(inp, a, bigs[0].att);
    NativeCovered(inp, a, bigs[0]);
    FinalCovered(inp, bigs, a, theirs, obj);
    RefRunIsRun(inp, 1, g, moves);
    assert HistoryGain(inp, ConservativePossible, g) by { NoPhase(inp); }
    assert AttainedBy(inp, ConservativePossible, g, moves, obj);
  }

  lemma NoPhase(inp: Input)
    requires inp.st.api != [] && !HistoryRuns(inp, ConservativePossible, Full)
    ensures HistoryGain(inp, ConservativePossible, View(InitialState(inp, ConservativePossible, Full)).att)
  {
    hide InitialState, HistoryRuns;
  }

  // ---------------------------------------------------------------- the engine's verdict

  /** A full-mode run of the possible view that goes through the history phase in any case. */
  ghost predicate RunsAnyway(inp: Input, h: State, stages: seq<State>)
    requires inp.st.api != []
  {
    && Saturates(Ctx(inp.st, Window(inp.historyStart), -1), HistoryStart(inp, ConservativePossible, Full), h)
    && Ladder(inp, Now, MainStart(inp, h), stages)
  }

  lemma AnywayReported(inp: Input, h: State, stages: seq<State>, obj: Objective)
    requires WellFormed(inp) && inp.st.api != [] && !HistoryRuns(inp, ConservativePossible, Full) && RunsAnyway(inp, h, stages)
    requires ClashFree(inp, ConservativePossible) && Attainable(inp, ConservativePossible, obj)
    ensures |stages| == |inp.actions| + 1 && Goal(obj) in stages[|inp.actions|].eph
  {
    hide Plain, HistoryRuns, Saturates, HistoryStart, InitialState, Ladder, Good, CoversAtt, Run, Violated, Reconcile, ClashFreeFrom, HistoryReach;
    var a, moves :| AttainedBy(inp, ConservativePossible, a, moves, obj);
    SeedsUnexpired(inp);
    NoActs(inp.st, Window(inp.historyStart), HistoryWorld(inp, ConservativePossible));
    ReachByActs(inp, ConservativePossible, [], HistoryWorld(inp, ConservativePossible));
    HistoryCovered(inp, ConservativePossible, Full, h, HistoryWorld(inp, ConservativePossible));
    StillClashFree(inp);
    LineSound(inp, ConservativePossible, Full, true, MainStart(inp, h), stages, [h] + stages, a, moves, obj);
  }

  /** An empty history adds no clash. */
  lemma StillClashFree(inp: Input)
    requires WellFormed(inp) && inp.st.api != [] && !HistoryRuns(inp, ConservativePossible, Full) && ClashFree(inp, ConservativePossible)
    ensures ClashFreeFrom(inp, ConservativePossible, -1)
  {
    hide Reconcile, HistoryEnv, Clashes, HistoryRuns;
    SeedsUnexpired(inp);
    forall j, u | 0 <= j <= |inp.actions|
      ensures !Clashes(inp.st, Era(inp, ConservativePossible, -1), Era(inp, ConservativePossible, j), u)
    {
      InventoryClash(inp, j, u);
    }
  }

  lemma InventoryClash(inp: Input, j: nat, u: Uid)
    requires inp.st.api != [] && j <= |inp.actions| && ClashFreeFrom(inp, ConservativePossible, 0)
    ensures !Clashes(inp.st, inp.env, Era(inp, ConservativePossible, j), u)
  {
    hide Reconcile, HistoryEnv;
    ReconcileKeepsPods(inp.env);
    ReconcileOnlyPods(inp.env);
    var e := Era(inp, ConservativePossible, 0);
    assert e == Reconcile(inp.env);
    if j > 0 { assert !Clashes(inp.st, e, Era(inp, ConservativePossible, j), u); }
  }

  lemma ReportedAnyway(inp: Input, h: State, stages: seq<State>, obj: Objective)
    requires WellFormed(inp) && inp.st.api != [] && !HistoryRuns(inp, ConservativePossible, Full) && RunsAnyway(inp, h, stages)
    requires |stages| == |inp.actions| + 1 && Goal(obj) in stages[|inp.actions|].eph
    ensures Attainable(inp, ConservativePossible, obj)
  {
    hide Plain, HistoryRuns, Saturates, HistoryStart, InitialState, Ladder, Run, Violated, Reconcile, HistoryReach;
    PlainParses(inp);
    var w := HistoryAsWorld(inp, ConservativePossible, h);
    assert GainedAnyway(inp, w.att);
    var moves := LadderAsMoves(inp, MainStart(inp, h), stages, w.att, |inp.actions|);
    HistoryAddsNothing(inp, w.att, moves, obj);
  }

  /** Where the engine skips the phase, running it anyway leaves the final goals as they are. */
  lemma PhaseChangesNoGoal(inp: Input, plain: seq<State>, h: State, anyway: seq<State>, obj: Objective)
    requires WellFormed(inp) && inp.st.api != [] && ClashFree(inp, ConservativePossible) && !HistoryRuns(inp, ConservativePossible, Full)
    requires EngineRun(inp, ConservativePossible, Full, plain) && |plain| == |inp.actions| + 1
    requires RunsAnyway(inp, h, anyway) && |anyway| == |inp.actions| + 1
    ensures Goal(obj) in plain[|inp.actions|].eph <==> Goal(obj) in anyway[|inp.actions|].eph
  {
    hide Plain, HistoryRuns, EngineRun, RunsAnyway, Run, Violated, Reconcile, HistoryGain, ClashFree;
    if Goal(obj) in plain[|inp.actions|].eph {
      PlainParses(inp);
      var a, moves := EngineComplete(inp, ConservativePossible, plain);
      assert AttainedBy(inp, ConservativePossible, a, moves, obj);
      AnywayReported(inp, h, anyway, obj);
    }
    if Goal(obj) in anyway[|inp.actions|].eph {
      ReportedAnyway(inp, h, anyway, obj);
      var a, moves :| AttainedBy(inp, ConservativePossible, a, moves, obj);
      EngineSound(inp, ConservativePossible, Full, plain, a, moves, obj);
    }
  }
}
