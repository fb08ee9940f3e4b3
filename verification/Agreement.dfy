/** The engine and the reference explorer agree: for every limit of at least one live created
    workload per account, the engine's final goals are exactly the objectives the explorer can
    reach. */
module Agreement {
  import opened Model
  import opened Semantics
  import opened Attack
  import opened Rules
  import opened Shape
  import opened Cover
  import opened Fixpoint
  import opened Legality
  import opened Case
  import opened Interleavings
  import opened Exactness
  import opened Reference
  import opened Canonical

  // ---------------------------------------------------------------- the explorer's runs

  /** The explorer's state after a sequence of its single attacker steps, or `None`. */
  ghost function RefRunActs(st: Static, limit: nat, window: Option<Option<int>>, s: RefState, acts: seq<Act>): Option<RefState>
    requires st.api != []
  {
    if acts == [] then Some(s)
    else
      var before := RefRunActs(st, limit, window, s, acts[..|acts| - 1]);
      var act := acts[|acts| - 1];
      if before.Some? && act in RefActs(st, limit, before.value, window) then Some(RefDo(st, before.value, act)) else None
  }

  datatype RefStage = RefStage(phase: nat, state: RefState)

  function RefDefend(s: RefState, a: Action): RefState { s.(world := DefendWorld(s.world, a)) }

  ghost function RefMove(st: Static, limit: nat, actions: seq<Action>, s: RefStage, m: Move): Option<RefStage>
    requires st.api != []
  {
    match m
    case Attacker(act) =>
      if act in RefActs(st, limit, s.state, None) then Some(RefStage(s.phase, RefDo(st, s.state, act))) else None
    case Defender =>
      if s.phase < |actions| then Some(RefStage(s.phase + 1, RefDefend(s.state, actions[s.phase]))) else None
  }

  ghost function RefRun(st: Static, limit: nat, actions: seq<Action>, s: RefStage, moves: seq<Move>): Option<RefStage>
    requires st.api != []
  {
    if moves == [] then Some(s)
    else
      var before := RefRun(st, limit, actions, s, moves[..|moves| - 1]);
      if before.Some? then RefMove(st, limit, actions, before.value, moves[|moves| - 1]) else None
  }

  lemma RefRunExtend(st: Static, limit: nat, actions: seq<Action>, s: RefStage, moves: seq<Move>, m: Move)
    requires st.api != []
    ensures RefRun(st, limit, actions, s, moves + [m]) ==
      var before := RefRun(st, limit, actions, s, moves);
      if before.Some? then RefMove(st, limit, actions, before.value, m) else None
  {
    assert (moves + [m])[..|moves + [m]| - 1] == moves;
  }

  lemma RefRunNone(st: Static, limit: nat, actions: seq<Action>, s: RefStage)
    requires st.api != []
    ensures RefRun(st, limit, actions, s, []) == Some(s)
  {
  }

  /** Where the explorer's main phase starts. */
  function RefStart(inp: Input, a: Att): RefStage { RefStage(0, RefState(World(Reconcile(inp.env), a), 0, 0)) }

  lemma RefStartGood(inp: Input, a: Att)
    requires WellFormed(inp)
    ensures RefGood(Base(inp, 0), RefStart(inp, a).state)
  {
    hide EnvInv, Reconcile, Reconciled, OnlyModels;
    MainEnvGood(inp);
    SameCtrls(inp);
  }

  lemma RefDefendKeepsGood(base: Env, s: RefState, a: Action)
    requires RefGood(base, s) && NativeAction(a) && Reconciled(base)
    ensures RefGood(NextBase(base, a), RefDefend(s, a))
  {
    hide EnvInv, Reconcile, Defend, Reconciled;
    DefendKeepsInv(base, s.world, a);
    DefendShrinks(s.world.env, a);
    ReconcileKeepsPods(Defend(s.world.env, a));
    ReconcileOnlyPods(Defend(s.world.env, a));
  }

  /** Each run of the explorer is one of the interleavings. */
  lemma {:induction false} RefRunIsRun(inp: Input, limit: nat, a: Att, moves: seq<Move>)
    requires WellFormed(inp) && RefRun(inp.st, limit, inp.actions, RefStart(inp, a), moves).Some?
    ensures var s := RefRun(inp.st, limit, inp.actions, RefStart(inp, a), moves).value;
      && s.phase <= |inp.actions| && RefGood(Base(inp, s.phase), s.state)
      && Run(inp.st, Now, inp.actions, Stage(0, World(Reconcile(inp.env), a)), moves) == Some(Stage(s.phase, s.state.world))
  {
    hide RefGood, RefActs, Enabled, Do, Reconcile, Defend, Reconciled;
    if moves == [] {
      RefStartGood(inp, a);
    } else {
      RefRunIsRun(inp, limit, a, moves[..|moves| - 1]);
      var s := RefRun(inp.st, limit, inp.actions, RefStart(inp, a), moves[..|moves| - 1]).value;
      match moves[|moves| - 1] {
        case Attacker(act) =>
          RefGoodNumbered(Base(inp, s.phase), s.state);
          RefActIsLegal(inp.st, limit, s.state, None, act);
          RefStepKeepsGood(inp.st, limit, Base(inp, s.phase), s.state, None, act);
        case Defender =>
          BaseReconciled(inp, s.phase);
          RefDefendKeepsGood(Base(inp, s.phase), s.state, inp.actions[s.phase]);
      }
    }
  }

  lemma RefGoodNumbered(base: Env, s: RefState)
    requires RefGood(base, s)
    ensures Numbered(s) && Inv(base, s.world)
  {
  }

  // ---------------------------------------------------------------- saturating an interval

  lemma RicherTransitive(a: World, b: World, c: World)
    requires Richer(a, b) && Richer(b, c)
    ensures Richer(a, c)
  {
  }

  lemma CtrlsGrow(st: Static, limit: nat, s: RefState, window: Option<Option<int>>, act: Act)
    requires st.api != [] && act in RefActs(st, limit, s, window)
    ensures s.world.env.ctrls.Keys <= RefDo(st, s, act).world.env.ctrls.Keys
  {
    hide Reconcile;
    if act.NewCtrl? { ReconcileOnlyPods(Unreconciled(s.world.env, act.account, act.uid, act.fromZero)); }
  }

  /** From any state the explorer can run on to a saturated one, losing nothing. */
  lemma RefSaturates(st: Static, limit: nat, base: Env, s: RefState, window: Option<Option<int>>) returns (acts: seq<Act>)
    requires st.Valid() && limit >= 1 && RefGood(base, s) && WindowFits(window, s.world.env)
    ensures RefRunActs(st, limit, window, s, acts).Some?
    ensures var t := RefRunActs(st, limit, window, s, acts).value;
      && RefGood(base, t) && Saturated(st, RuleOf(window), t.world) && Richer(s.world, t.world)
      && s.world.env.ctrls.Keys <= t.world.env.ctrls.Keys
    decreases |LackingPods(s.world)| + |LackingCtrls(s.world)|, |Uncontrolled(s.world)|, |Unread(s.world)|, |Untaken(st, s.world)|
  {
    hide RefGood, RefActs, Saturated, Do, Richer, LackingPods, LackingCtrls, Uncontrolled, Unread, Untaken, Enabled;
    if Saturated(st, RuleOf(window), s.world) {
      acts := [];
      RicherSelf(s.world);
    } else {
      var act := CanMove(st, limit, base, s, window);
      RefStepKeepsGood(st, limit, base, s, window, act);
      CtrlsGrow(st, limit, s, window, act);
      var t := RefDo(st, s, act);
      var rest := RefSaturates(st, limit, base, t, window);
      RefPrepend(st, limit, window, s, act, rest);
      acts := [act] + rest;
      RicherTransitive(s.world, t.world, RefRunActs(st, limit, window, t, rest).value.world);
    }
  }

  lemma RicherSelf(w: World)
    ensures Richer(w, w)
  {
  }

  lemma {:induction false} RefPrepend(st: Static, limit: nat, window: Option<Option<int>>, s: RefState, act: Act, rest: seq<Act>)
    requires st.api != [] && act in RefActs(st, limit, s, window) && RefRunActs(st, limit, window, RefDo(st, s, act), rest).Some?
    ensures RefRunActs(st, limit, window, s, [act] + rest) == RefRunActs(st, limit, window, RefDo(st, s, act), rest)
  {
    hide RefActs, Do;
    if rest == [] {
      assert [act] + rest == [act];
      assert [act][..0] == [];
      assert RefRunActs(st, limit, window, s, []) == Some(s);
    } else {
      var init := rest[..|rest| - 1];
      RefPrepend(st, limit, window, s, act, init);
      assert ([act] + rest)[..|[act] + rest| - 1] == [act] + init;
    }
  }

  lemma {:induction false} RefActsAsMoves(st: Static, limit: nat, actions: seq<Action>, s: RefStage, moves: seq<Move>, acts: seq<Act>)
    requires st.api != [] && RefRun(st, limit, actions, s, moves).Some?
    requires RefRunActs(st, limit, None, RefRun(st, limit, actions, s, moves).value.state, acts).Some?
    ensures var m := RefRun(st, limit, actions, s, moves).value;
      RefRun(st, limit, actions, s, moves + AsMoves(acts)) == Some(RefStage(m.phase, RefRunActs(st, limit, None, m.state, acts).value))
  {
    hide RefActs, RefDo;
    if acts == [] {
      assert moves + AsMoves(acts) == moves;
    } else {
      var init := acts[..|acts| - 1];
      RefActsAsMoves(st, limit, actions, s, moves, init);
      assert moves + AsMoves(acts) == (moves + AsMoves(init)) + [Attacker(acts[|acts| - 1])];
      RefRunExtend(st, limit, actions, s, moves + AsMoves(init), Attacker(acts[|acts| - 1]));
    }
  }

  lemma RicherGrows(st: Static, w: World, v: World)
    requires Richer(w, v) && w.env.ctrls.Keys <= v.env.ctrls.Keys
    ensures Grows(st, w, v)
  {
    WithinCovers(st, w.att, v.att);
  }

  // ---------------------------------------------------------------- a run of the explorer that covers everything

  /** Worlds the explorer passes through, one saturated per interval up to `k`. */
  ghost predicate RefRungs(inp: Input, k: nat, bigs: seq<World>)
    requires inp.st.api != [] && k <= |inp.actions|
  {
    && |bigs| == k + 1
    && (forall i :: 0 <= i <= k ==> Rung(inp, i, bigs[i]))
    && (forall i :: 0 <= i < k ==> Grows(inp.st, DefendWorld(bigs[i], inp.actions[i]), bigs[i + 1]))
  }

  lemma RefSaturatesStage(inp: Input, limit: nat, a: Att, moves: seq<Move>, k: nat) returns (more: seq<Move>, big: World)
    requires WellFormed(inp) && limit >= 1 && k <= |inp.actions|
    requires RefRun(inp.st, limit, inp.actions, RefStart(inp, a), moves).Some?
    requires RefRun(inp.st, limit, inp.actions, RefStart(inp, a), moves).value.phase == k
    ensures RefRun(inp.st, limit, inp.actions, RefStart(inp, a), more).Some?
    ensures var s := RefRun(inp.st, limit, inp.actions, RefStart(inp, a), more).value;
      s.phase == k && s.state.world == big && Rung(inp, k, big)
    ensures Grows(inp.st, RefRun(inp.st, limit, inp.actions, RefStart(inp, a), moves).value.state.world, big)
  {
    hide RefRun, RefGood, RefRunActs, Saturated, Grows, Run, Richer;
    var s := RefRun(inp.st, limit, inp.actions, RefStart(inp, a), moves).value;
    RefRunIsRun(inp, limit, a, moves);
    var acts := RefSaturates(inp.st, limit, Base(inp, k), s.state, None);
    RefActsAsMoves(inp.st, limit, inp.actions, RefStart(inp, a), moves, acts);
    more := moves + AsMoves(acts);
    var t := RefRunActs(inp.st, limit, None, s.state, acts).value;
    big := t.world;
    RefGoodNumbered(Base(inp, k), t);
    RicherGrows(inp.st, s.state.world, big);
  }

  lemma {:induction false} RefLadder(inp: Input, limit: nat, a: Att, k: nat) returns (moves: seq<Move>, bigs: seq<World>)
    requires WellFormed(inp) && limit >= 1 && k <= |inp.actions|
    ensures RefRun(inp.st, limit, inp.actions, RefStart(inp, a), moves).Some?
    ensures RefRungs(inp, k, bigs) && Grows(inp.st, World(Reconcile(inp.env), a), bigs[0])
    ensures RefRun(inp.st, limit, inp.actions, RefStart(inp, a), moves).value.phase == k
    ensures RefRun(inp.st, limit, inp.actions, RefStart(inp, a), moves).value.state.world == bigs[k]
    decreases k
  {
    hide Rung, Grows, Reconcile, Defend, Plain, RefRun;
    NonEmptyApi(inp);
    RefRunNone(inp.st, limit, inp.actions, RefStart(inp, a));
    if k == 0 {
      var big;
      moves, big := RefSaturatesStage(inp, limit, a, [], 0);
      bigs := [big];
    } else {
      var before, rungs := RefLadder(inp, limit, a, k - 1);
      RefRunExtend(inp.st, limit, inp.actions, RefStart(inp, a), before, Defender);
      var big;
      moves, big := RefSaturatesStage(inp, limit, a, before + [Defender], k);
      bigs := rungs + [big];
    }
  }

  // ---------------------------------------------------------------- history in the explorer

  /** The history environment: historical Pods are back, nothing is reconciled yet. */
  function RefHistoryStart(inp: Input, view: Perspective): RefState { RefState(HistoryWorld(inp, view), 0, 0) }

  ghost predicate RefHistoryReach(inp: Input, view: Perspective, limit: nat, s: RefState)
    requires inp.st.api != []
  {
    exists acts :: RefRunActs(inp.st, limit, Some(inp.historyStart), RefHistoryStart(inp, view), acts) == Some(s)
  }

  ghost predicate Within(a: Att, b: Att) {
    a.creds <= b.creds && a.pods <= b.pods && a.ctrls <= b.ctrls && a.know <= b.know
  }

  /** The union of what the attacker holds over all histories the explorer can reach. */
  ghost predicate RefHistoryUnion(inp: Input, view: Perspective, limit: nat, a: Att)
    requires inp.st.api != []
  {
    if HistoryRuns(inp, view, Full) then
      && (forall s :: RefHistoryReach(inp, view, limit, s) ==> Within(s.world.att, a))
      && (forall c :: c in a.creds ==> exists s :: RefHistoryReach(inp, view, limit, s) && c in s.world.att.creds)
      && (forall u :: u in a.pods ==> exists s :: RefHistoryReach(inp, view, limit, s) && u in s.world.att.pods)
      && (forall c :: c in a.ctrls ==> exists s :: RefHistoryReach(inp, view, limit, s) && c in s.world.att.ctrls)
      && (forall k :: k in a.know ==> exists s :: RefHistoryReach(inp, view, limit, s) && k in s.world.att.know)
    else a == View(InitialState(inp, view, Full)).att
  }

  lemma RefHistoryStartGood(inp: Input, view: Perspective)
    requires WellFormed(inp)
    ensures RefGood(HistoryEnv(inp, view, Full), RefHistoryStart(inp, view))
    ensures WindowFits(Some(inp.historyStart), RefHistoryStart(inp, view).world.env)
  {
    hide InitialState, Shaped;
    HistoryEnvGood(inp, view, Full);
  }

  lemma {:induction false} RefActsAreLegal(inp: Input, view: Perspective, limit: nat, acts: seq<Act>)
    requires WellFormed(inp) && RefRunActs(inp.st, limit, Some(inp.historyStart), RefHistoryStart(inp, view), acts).Some?
    ensures var s := RefRunActs(inp.st, limit, Some(inp.historyStart), RefHistoryStart(inp, view), acts).value;
      && RefGood(HistoryEnv(inp, view, Full), s) && WindowFits(Some(inp.historyStart), s.world.env)
      && RunActs(inp.st, Window(inp.historyStart), HistoryWorld(inp, view), acts) == Some(s.world)
  {
    hide RefGood, RefActs, Enabled, Do, HistoryWorld, HistoryEnv;
    if acts == [] {
      RefHistoryStartGood(inp, view);
    } else {
      RefActsAreLegal(inp, view, limit, acts[..|acts| - 1]);
      var s := RefRunActs(inp.st, limit, Some(inp.historyStart), RefHistoryStart(inp, view), acts[..|acts| - 1]).value;
      var act := acts[|acts| - 1];
      RefGoodNumbered(HistoryEnv(inp, view, Full), s);
      RefActIsLegal(inp.st, limit, s, Some(inp.historyStart), act);
      RefStepKeepsGood(inp.st, limit, HistoryEnv(inp, view, Full), s, Some(inp.historyStart), act);
    }
  }

  lemma RefReachIsReach(inp: Input, view: Perspective, limit: nat, s: RefState)
    requires WellFormed(inp) && RefHistoryReach(inp, view, limit, s)
    ensures HistoryReach(inp, view, s.world)
  {
    hide RefRunActs, RunActs, RefGood, HistoryReach;
    var acts :| RefRunActs(inp.st, limit, Some(inp.historyStart), RefHistoryStart(inp, view), acts) == Some(s);
    RefActsAreLegal(inp, view, limit, acts);
    ReachByActs(inp, view, acts, s.world);
  }

  /** What the explorer unites from its histories was gained in possible histories. */
  lemma UnionIsGain(inp: Input, view: Perspective, limit: nat, a: Att)
    requires WellFormed(inp) && RefHistoryUnion(inp, view, limit, a)
    ensures HistoryGain(inp, view, a)
  {
    hide RefHistoryReach, HistoryReach, HistoryRuns;
    forall s | RefHistoryReach(inp, view, limit, s)
      ensures HistoryReach(inp, view, s.world)
    {
      RefReachIsReach(inp, view, limit, s);
    }
  }

  /** The union is as good as anything any history could have given. */
  lemma UnionCoversGain(inp: Input, view: Perspective, limit: nat, a: Att, g: Att)
    requires WellFormed(inp) && limit >= 1 && RefHistoryUnion(inp, view, limit, a) && HistoryGain(inp, view, g)
    ensures CoversAtt(inp.st, g, a)
  {
    hide RefHistoryReach, HistoryReach, InitialState;
    if HistoryRuns(inp, view, Full) {
      var s := SaturatedHistory(inp, view, limit);
      forall w | HistoryReach(inp, view, w)
        ensures CoversAtt(inp.st, w.att, a)
      {
        SaturatedHistoryCovers(inp, view, limit, s, w);
        WithinCovers(inp.st, s.world.att, a);
        CoversAttTransitive(inp.st, w.att, s.world.att, a);
      }
    } else {
      WithinCovers(inp.st, g, g);
    }
  }

  lemma SaturatedHistory(inp: Input, view: Perspective, limit: nat) returns (s: RefState)
    requires WellFormed(inp) && limit >= 1
    ensures RefHistoryReach(inp, view, limit, s) && RefGood(HistoryEnv(inp, view, Full), s)
    ensures Saturated(inp.st, Window(inp.historyStart), s.world) && Grows(inp.st, HistoryWorld(inp, view), s.world)
  {
    hide RefGood, RefRunActs, Saturated, HistoryWorld, HistoryEnv, Grows, Richer;
    RefHistoryStartGood(inp, view);
    var acts := RefSaturates(inp.st, limit, HistoryEnv(inp, view, Full), RefHistoryStart(inp, view), Some(inp.historyStart));
    s := RefRunActs(inp.st, limit, Some(inp.historyStart), RefHistoryStart(inp, view), acts).value;
    RicherGrows(inp.st, HistoryWorld(inp, view), s.world);
  }

  lemma SaturatedHistoryCovers(inp: Input, view: Perspective, limit: nat, s: RefState, w: World)
    requires WellFormed(inp) && RefGood(HistoryEnv(inp, view, Full), s)
    requires Saturated(inp.st, Window(inp.historyStart), s.world) && Grows(inp.st, HistoryWorld(inp, view), s.world)
    requires HistoryReach(inp, view, w)
    ensures CoversAtt(inp.st, w.att, s.world.att)
  {
    hide RefGood, RunActs, Saturated, Grows, CoversEnv, CoversAtt, HistoryReach;
    var base := HistoryEnv(inp, view, Full);
    var acts := HistoryActs(inp, view, w);
    RefGoodNumbered(base, s);
    HistoryGood(inp, view, Full);
    HistorySame(inp, view, Full);
    HistoryWorldSelf(inp, view);
    CoversThenGrows(inp.st, HistoryWorld(inp, view), HistoryWorld(inp, view), s.world);
    ActsCovered(inp.st, Window(inp.historyStart), Window(inp.historyStart), base, HistoryWorld(inp, view), s.world, acts);
  }

  // ---------------------------------------------------------------- the two agree

  /** Some run of the explorer violates the objective in its final phase. */
  ghost predicate RefReaches(inp: Input, limit: nat, a: Att, obj: Objective)
    requires inp.st.api != []
  {
    exists moves :: RefViolates(inp, limit, a, moves, obj)
  }

  ghost predicate RefViolates(inp: Input, limit: nat, a: Att, moves: seq<Move>, obj: Objective)
    requires inp.st.api != []
  {
    var s := RefRun(inp.st, limit, inp.actions, RefStart(inp, a), moves);
    s.Some? && s.value.phase == |inp.actions| && Violated(inp.st, Now, s.value.state.world, obj)
  }

  lemma EngineReportsAll(inp: Input, view: Perspective, stages: seq<State>, limit: nat, a: Att, obj: Objective)
    requires WellFormed(inp) && ClashFree(inp, view) && EngineRun(inp, view, Full, stages) && RefHistoryUnion(inp, view, limit, a)
    requires RefReaches(inp, limit, a, obj)
    ensures |stages| == |inp.actions| + 1 && Goal(obj) in stages[|inp.actions|].eph
  {
    hide RefRun, Run, Violated, HistoryGain, RefHistoryUnion, RefGood, Reconcile, ClashFree;
    var moves :| RefViolates(inp, limit, a, moves, obj);
    RefRunIsRun(inp, limit, a, moves);
    UnionIsGain(inp, view, limit, a);
    EngineSound(inp, view, Full, stages, a, moves, obj);
  }

  /** Whatever any interleaving attains from any history, some run of the explorer attains. */
  lemma ExplorerAttains(inp: Input, view: Perspective, limit: nat, a: Att, g: Att, theirs: seq<Move>, obj: Objective)
    requires WellFormed(inp) && limit >= 1 && RefHistoryUnion(inp, view, limit, a) && HistoryGain(inp, view, g)
    requires var s := Run(inp.st, Now, inp.actions, Stage(0, World(Reconcile(inp.env), g)), theirs);
      s.Some? && s.value.phase == |inp.actions| && Violated(inp.st, Now, s.value.world, obj)
    ensures RefReaches(inp, limit, a, obj)
  {
    hide RefRun, Run, Violated, HistoryGain, RefHistoryUnion, Reconcile, Grows, Rung, CoversAtt;
    var n := |inp.actions|;
    var moves, bigs := RefLadder(inp, limit, a, n);
    UnionCoversGain(inp, view, limit, a, g);
    RungsAreLadder(inp, bigs);
    NativeCovered(inp, g, World(Reconcile(inp.env), a));
    CoversThenGrows(inp.st, World(Reconcile(inp.env), g), World(Reconcile(inp.env), a), bigs[0]);
    FinalCovered(inp, bigs, g, theirs, obj);
    assert RefViolates(inp, limit, a, moves, obj);
  }

  lemma ExplorerReachesAll(inp: Input, view: Perspective, stages: seq<State>, limit: nat, a: Att, obj: Objective)
    requires WellFormed(inp) && EngineRun(inp, view, Full, stages) && limit >= 1 && RefHistoryUnion(inp, view, limit, a)
    requires |stages| == |inp.actions| + 1 && Goal(obj) in stages[|inp.actions|].eph
    ensures RefReaches(inp, limit, a, obj)
  {
    hide RefRun, Run, Violated, HistoryGain, RefHistoryUnion, Reconcile, EngineRun, RefReaches;
    var g, theirs := EngineComplete(inp, view, stages);
    ExplorerAttains(inp, view, limit, a, g, theirs, obj);
  }

  lemma RungsAreLadder(inp: Input, bigs: seq<World>)
    requires inp.st.api != [] && RefRungs(inp, |inp.actions|, bigs)
    ensures WorldLadder(inp, bigs)
  {
    hide Rung, Grows, Reconcile, Defend;
  }

  /** The differential claim, for every clash-free input, every view and limit: the engine's goals
      at the final interval are exactly the objectives reachable in the explorer. */
  lemma EngineAgreesWithExplorer(inp: Input, view: Perspective, stages: seq<State>, limit: nat, a: Att, obj: Objective)
    requires WellFormed(inp) && ClashFree(inp, view) && EngineRun(inp, view, Full, stages) && limit >= 1 && RefHistoryUnion(inp, view, limit, a)
    ensures |stages| == |inp.actions| + 1
    ensures Goal(obj) in stages[|inp.actions|].eph <==> RefReaches(inp, limit, a, obj)
  {
    hide RefReaches, RefHistoryUnion, Plain, ClashFree;
    NonEmptyApi(inp);
    var start :| StartsMain(inp, view, Full, start) && Ladder(inp, Now, start, stages);
    if Goal(obj) in stages[|inp.actions|].eph { ExplorerReachesAll(inp, view, stages, limit, a, obj); }
    if RefReaches(inp, limit, a, obj) { EngineReportsAll(inp, view, stages, limit, a, obj); }
  }
}
