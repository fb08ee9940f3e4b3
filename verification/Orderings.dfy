/** How the two views and the four evaluation modes compare. */
module Orderings {
  import opened Model
  import opened Semantics
  import opened Attack
  import opened Rules
  import opened Shape
  import opened Cover
  import opened Fixpoint
  import opened Legality
  import opened Case
  import opened Interleavings
  import opened Exactness
  import opened Tenure
  import opened Agreement
  import opened EngineStatus
  import opened Engine
  import opened Results

  // ---------------------------------------------------------------- holding more attains more

  /** Whatever can be attained from `a` can be attained from anything that covers it. */
  lemma MoreHeld(inp: Input, a: Att, g: Att, theirs: seq<Move>, obj: Objective) returns (moves: seq<Move>)
    requires WellFormed(inp) && CoversAtt(inp.st, a, g)
    requires var s := Run(inp.st, Now, inp.actions, Stage(0, World(Reconcile(inp.env), a)), theirs);
      s.Some? && s.value.phase == |inp.actions| && Violated(inp.st, Now, s.value.world, obj)
    ensures var s := Run(inp.st, Now, inp.actions, Stage(0, World(Reconcile(inp.env), g)), moves);
      s.Some? && s.value.phase == |inp.actions| && Violated(inp.st, Now, s.value.world, obj)
  {
    hide RefRun, Run, Violated, Reconcile, Grows, Rung, CoversAtt;
    var n := |inp.actions|;
    var bigs;
    moves, bigs := RefLadder(inp, 1, g, n);
    RungsAreLadder(inp, bigs);
    NativeCovered(inp, a, World(Reconcile(inp.env), g));
    CoversThenGrows(inp.st, World(Reconcile(inp.env), a), World(Reconcile(inp.env), g), bigs[0]);
    FinalCovered(inp, bigs, a, theirs, obj);
    RefRunIsRun(inp, 1, g, moves);
  }

  lemma MoreAttainable(inp: Input, view: Perspective, a: Att, g: Att, theirs: seq<Move>, obj: Objective)
    requires WellFormed(inp) && inp.st.api != [] && CoversAtt(inp.st, a, g) && HistoryGain(inp, view, g)
    requires var s := Run(inp.st, Now, inp.actions, Stage(0, World(Reconcile(inp.env), a)), theirs);
      s.Some? && s.value.phase == |inp.actions| && Violated(inp.st, Now, s.value.world, obj)
    ensures Attainable(inp, view, obj)
  {
    hide Run, Violated, Reconcile, CoversAtt, HistoryGain;
    var moves := MoreHeld(inp, a, g, theirs, obj);
    assert AttainedBy(inp, view, g, moves, obj);
  }

  // ---------------------------------------------------------------- views

  /** What the attacker holds from the start counts as gained in any history. */
  lemma HeldIsGained(inp: Input, view: Perspective) returns (g: Att)
    requires WellFormed(inp) && inp.st.api != []
    ensures HistoryGain(inp, view, g) && Within(View(InitialState(inp, view, Full)).att, g)
  {
    hide InitialState, HistoryRuns, Reaches;
    if HistoryRuns(inp, view, Full) {
      g := HistoryWorld(inp, view).att;
      NoActs(inp.st, Window(inp.historyStart), HistoryWorld(inp, view));
      ReachByActs(inp, view, [], HistoryWorld(inp, view));
      HistoryHolds(inp, view);
    } else {
      g := View(InitialState(inp, view, Full)).att;
    }
  }

  lemma HistoryHolds(inp: Input, view: Perspective)
    ensures Within(View(InitialState(inp, view, Full)).att, HistoryWorld(inp, view).att)
  {
    hide HistoryEnv, HistoricalFacts, InitialState;
    var s, t := InitialState(inp, view, Full), HistoryStart(inp, view, Full);
    assert s.facts.Keys <= t.facts.Keys && s.creds == t.creds;
    TablesWithin(s, t);
  }

  lemma TablesWithin(s: State, t: State)
    requires s.facts.Keys <= t.facts.Keys && forall id :: id in s.creds ==> id in t.creds && t.creds[id] == s.creds[id]
    ensures Within(View(s).att, View(t).att)
  {
    var a, b := View(s).att, View(t).att;
    forall c | c in a.creds
      ensures c in b.creds
    {
      var id :| id in s.creds && s.creds[id] == c;
      assert t.creds[id] == c;
    }
    forall u | u in a.pods
      ensures u in b.pods
    {
      assert ControlsPod(u) in t.facts.Keys;
    }
    forall c | c in a.ctrls
      ensures c in b.ctrls
    {
      assert ControlsController(c) in t.facts.Keys;
    }
    forall k | k in a.know
      ensures k in b.know
    {
      assert KnowsSecret(k) in t.facts.Keys;
    }
  }

  lemma EvidenceHeld(inp: Input)
    ensures Within(View(InitialState(inp, EvidenceSupported, Full)).att, View(InitialState(inp, ConservativePossible, Full)).att)
  {
    var s, t := InitialState(inp, EvidenceSupported, Full), InitialState(inp, ConservativePossible, Full);
    assert InitialFacts(inp, EvidenceSupported, Full) <= InitialFacts(inp, ConservativePossible, Full);
    TablesWithin(s, t);
  }

  lemma WithinThen(a: Att, b: Att, c: Att)
    requires Within(a, b) && Within(b, c)
    ensures Within(a, c)
  {
  }

  /** Everything the evidence view attains, the possible view attains. */
  lemma EvidenceWithinPossible(inp: Input, obj: Objective)
    requires WellFormed(inp) && inp.st.api != [] && Attainable(inp, EvidenceSupported, obj)
    ensures Attainable(inp, ConservativePossible, obj)
  {
    hide Run, Violated, Reconcile, CoversAtt, Within, Plain, InitialState, HistoryRuns;
    var a, moves :| AttainedBy(inp, EvidenceSupported, a, moves, obj);
    NoEvidenceHistory(inp);
    var g := HeldIsGained(inp, ConservativePossible);
    EvidenceHeld(inp);
    WithinThen(a, View(InitialState(inp, ConservativePossible, Full)).att, g);
    WithinCovers(inp.st, a, g);
    MoreAttainable(inp, ConservativePossible, a, g, moves, obj);
  }

  lemma NoEvidenceHistory(inp: Input)
    ensures !HistoryRuns(inp, EvidenceSupported, Full)
  {
  }

  // ---------------------------------------------------------------- the final configuration

  /** The defender may act through to the final phase while the attacker waits. */
  lemma {:induction false} DefenderFirst(inp: Input, start: State, a: Att, k: nat) returns (moves: seq<Move>)
    requires WellFormed(inp) && inp.st.api != [] && k <= |inp.actions| && start.env == Base(inp, 0) && Backs(World(start.env, a), start)
    ensures Run(inp.st, Now, inp.actions, Stage(0, World(start.env, a)), moves) == Some(Stage(k, World(Base(inp, k), a)))
    ensures Backs(World(Base(inp, k), a), start.(env := Base(inp, k)))
    decreases k
  {
    hide Backs, Reconcile, Defend, Plain;
    if k == 0 {
      moves := [];
      assert start.(env := Base(inp, 0)) == start;
    } else {
      var before := DefenderFirst(inp, start, a, k - 1);
      RunExtend(inp.st, Now, inp.actions, Stage(0, World(start.env, a)), before, Defender);
      DefendBacked(World(Base(inp, k - 1), a), start.(env := Base(inp, k - 1)), inp.actions[k - 1]);
      BacksEph(World(Base(inp, k), a), NextState(start.(env := Base(inp, k - 1)), inp.actions[k - 1]), start.(env := Base(inp, k)));
      moves := before + [Defender];
    }
  }

  lemma BacksEph(w: World, s: State, t: State)
    requires Backs(w, s) && t.env == s.env && t.creds == s.creds && t.facts == s.facts
    ensures Backs(w, t)
  {
  }

  /** With every controller serving, the final configuration is the last phase's environment. */
  lemma {:induction false} FinalIsBase(inp: Input, k: nat)
    requires Reconciled(inp.env) && k <= |inp.actions|
    ensures FinalEnv(inp.env, inp.actions[..k]) == Base(inp, k)
  {
    hide NextBase;
    if k == 0 {
      ReconcileIdempotent(inp.env);
    } else {
      FinalIsBase(inp, k - 1);
      assert inp.actions[..k][..k - 1] == inp.actions[..k - 1];
    }
  }

  lemma SameAsFull(inp: Input, view: Perspective, start: State)
    requires inp.st.api != []
    ensures StartsMain(inp, view, FinalState, start) <==> StartsMain(inp, view, Full, start)
  {
    hide HistoryStart, InitialState, HistoryRuns, Saturates, Reconcile;
    HistorySame(inp, view, FinalState);
  }

  /** An interleaving that reaches everything the final-state baseline reports. */
  lemma BaselineAsRun(inp: Input, view: Perspective, after: State) returns (a: Att, moves: seq<Move>, acts: seq<Act>)
    requires WellFormed(inp) && inp.st.api != [] && Reconciled(inp.env) && BaselineRun(inp, view, FinalState, after)
    ensures HistoryGain(inp, view, a)
    ensures RunActs(inp.st, Now, World(Base(inp, |inp.actions|), a), acts).Some?
    ensures GoalsBacked(inp.st, Now, RunActs(inp.st, Now, World(Base(inp, |inp.actions|), a), acts).value, after)
    ensures Run(inp.st, Now, inp.actions, Stage(0, World(Reconcile(inp.env), a)), moves).Some?
    ensures Run(inp.st, Now, inp.actions, Stage(0, World(Reconcile(inp.env), a)), moves).value
         == Stage(|inp.actions|, RunActs(inp.st, Now, World(Base(inp, |inp.actions|), a), acts).value)
  {
    hide Reconcile, Backs, HistoryGain, GoalsBacked, RunActs, Run, Closed, StartsMain, FireAll, FinalEnv, Reconciled;
    var n := |inp.actions|;
    var start :| StartsMain(inp, view, FinalState, start) && Saturates(Ctx(inp.st, Now, 0), start.(env := FinalEnv(inp.env, inp.actions)), after);
    SameAsFull(inp, view, start);
    a := StartBacked(inp, view, start);
    var waited := DefenderFirst(inp, start, a, n);
    FinalIsBase(inp, n);
    assert inp.actions[..n] == inp.actions;
    var before := start.(env := Base(inp, n));
    var fs :| FireAll(Ctx(inp.st, Now, 0), before, fs) == Some(after);
    NoGoalsYet(inp.st, World(Base(inp, n), a), before);
    acts := FiringsAreARun(Ctx(inp.st, Now, 0), World(Base(inp, n), a), before, fs);
    ActsAsMoves(inp.st, Now, inp.actions, Stage(0, World(Reconcile(inp.env), a)), waited, acts);
    moves := waited + AsMoves(acts);
  }

  lemma NoGoalsYet(st: Static, w: World, s: State)
    requires s.eph == map[]
    ensures GoalsBacked(st, Now, w, s)
  {
  }

  /** What the final-state baseline reports, some interleaving attains. */
  lemma FinalWithinFull(inp: Input, view: Perspective, after: State, obj: Objective)
    requires WellFormed(inp) && inp.st.api != [] && Reconciled(inp.env)
    requires BaselineRun(inp, view, FinalState, after) && Goal(obj) in after.eph
    ensures Attainable(inp, view, obj)
  {
    hide Reconcile, HistoryGain, RunActs, Run, BaselineRun, Violated, Reconciled;
    var a, moves, acts := BaselineAsRun(inp, view, after);
    assert AttainedBy(inp, view, a, moves, obj);
  }

  // ---------------------------------------------------------------- the snapshot

  /** The snapshot baseline sees only seeded credentials. */
  function Snapshot(inp: Input): Input {
    inp.(facts := Seeds(inp.facts), historical := [])
  }

  function Seeds(fs: seq<InitialFact>): (r: seq<InitialFact>)
    ensures forall f :: f in r <==> f in fs && f.claim.ClaimCred? && f.status.Assumed?
  {
    if fs == [] then []
    else
      var f, rest := fs[|fs| - 1], Seeds(fs[..|fs| - 1]);
      assert fs == fs[..|fs| - 1] + [f];
      if f.claim.ClaimCred? && f.status.Assumed? then rest + [f] else rest
  }

  lemma SnapshotTables(inp: Input, view: Perspective)
    ensures InitialFacts(Snapshot(inp), view, FinalState) == InitialFacts(inp, view, SnapshotOnly)
    ensures HistoricalPods(Snapshot(inp), view, FinalState) == {} == HistoricalPods(inp, view, SnapshotOnly)
  {
    var a, b := InitialFacts(Snapshot(inp), view, FinalState), InitialFacts(inp, view, SnapshotOnly);
    forall f | f in b
      ensures f in a
    {
      var g :| g in inp.facts && Kept(g, view, SnapshotOnly) && f == FactOf(g.claim);
      assert g in Snapshot(inp).facts && Kept(g, view, FinalState);
    }
    forall f | f in a
      ensures f in b
    {
      var g :| g in Snapshot(inp).facts && Kept(g, view, FinalState) && f == FactOf(g.claim);
      assert g in inp.facts && Kept(g, view, SnapshotOnly);
    }
  }

  lemma SnapshotStarts(inp: Input, view: Perspective)
    ensures InitialState(Snapshot(inp), view, FinalState) == InitialState(inp, view, SnapshotOnly)
    ensures HistoryRuns(Snapshot(inp), view, FinalState) == HistoryRuns(inp, view, SnapshotOnly)
    ensures HistoryStart(Snapshot(inp), view, FinalState) == HistoryStart(inp, view, SnapshotOnly)
  {
    hide InitialFacts, HistoricalPods;
    SnapshotTables(inp, view);
    assert HistoryEnv(Snapshot(inp), view, FinalState).pods == HistoryEnv(inp, view, SnapshotOnly).pods;
  }

  lemma SnapshotStart(inp: Input, view: Perspective, start: State)
    requires inp.st.api != [] && StartsMain(inp, view, SnapshotOnly, start)
    ensures StartsMain(Snapshot(inp), view, FinalState, start)
  {
    hide InitialState, HistoryRuns, HistoryStart, Saturates, Reconcile;
    SnapshotStarts(inp, view);
    if HistoryRuns(inp, view, SnapshotOnly) {
      var h :| Saturates(Ctx(inp.st, HistoryRule(inp, SnapshotOnly), -1), HistoryStart(inp, view, SnapshotOnly), h) && start == MainStart(inp, h);
      assert start == MainStart(Snapshot(inp), h);
    }
  }

  lemma SnapshotAsFinal(inp: Input, view: Perspective, after: State)
    requires inp.st.api != [] && BaselineRun(inp, view, SnapshotOnly, after)
    ensures BaselineRun(Snapshot(inp), view, FinalState, after)
  {
    hide StartsMain, Saturates, FinalEnv;
    var start :| StartsMain(inp, view, SnapshotOnly, start) && Saturates(Ctx(inp.st, Now, 0), start.(env := FinalEnv(inp.env, inp.actions)), after);
    SnapshotStart(inp, view, start);
  }

  lemma SnapshotWellFormed(inp: Input)
    requires WellFormed(inp)
    ensures WellFormed(Snapshot(inp))
  {
  }

  lemma SnapshotHeld(inp: Input, view: Perspective)
    ensures Within(View(InitialState(Snapshot(inp), view, Full)).att, View(InitialState(inp, view, Full)).att)
    ensures HistoryRuns(Snapshot(inp), view, Full) ==> HistoryRuns(inp, view, Full)
    ensures HistoricalPods(Snapshot(inp), view, Full) == {}
  {
    var s, t := InitialState(Snapshot(inp), view, Full), InitialState(inp, view, Full);
    assert InitialFacts(Snapshot(inp), view, Full) <= InitialFacts(inp, view, Full) by {
      forall f | f in InitialFacts(Snapshot(inp), view, Full)
        ensures f in InitialFacts(inp, view, Full)
      {
        var g :| g in Snapshot(inp).facts && Kept(g, view, Full) && f == FactOf(g.claim);
        assert g in inp.facts;
      }
    }
    TablesWithin(s, t);
  }

  lemma StillReconciled(e: Env, f: Env)
    requires Reconciled(e) && f.ctrls == e.ctrls && forall u :: u in e.pods ==> u in f.pods && f.pods[u] == e.pods[u]
    ensures Reconciled(f)
  {
    forall c | c in f.ctrls
      ensures Owns(f.pods, c)
    {
      var u :| u in e.pods && e.pods[u].owner == Some(c);
      assert u in f.pods && f.pods[u].owner == Some(c);
    }
  }

  lemma HistoryKeepsInventory(inp: Input, view: Perspective)
    ensures var e := HistoryEnv(inp, view, Full);
      && e == inp.env.(pods := e.pods) && forall u :: u in inp.env.pods ==> u in e.pods && e.pods[u] == inp.env.pods[u]
    ensures HistoricalPods(inp, view, Full) == {} ==> HistoryEnv(inp, view, Full).pods == inp.env.pods
  {
    if HistoricalPods(inp, view, Full) == {} { assert HistoryEnv(inp, view, Full).pods == inp.env.pods; }
  }

  lemma SnapshotEnvs(inp: Input, view: Perspective)
    requires Reconciled(inp.env)
    ensures Underlies(HistoryEnv(Snapshot(inp), view, Full), HistoryEnv(inp, view, Full))
  {
    hide Reconcile, Reconciled, HistoryEnv, HistoricalPods, Owns;
    var b, o := HistoryEnv(Snapshot(inp), view, Full), HistoryEnv(inp, view, Full);
    HistoryKeepsInventory(inp, view);
    HistoryKeepsInventory(Snapshot(inp), view);
    assert HistoricalPods(Snapshot(inp), view, Full) == {} by { SnapshotHeld(inp, view); }
    StillReconciled(inp.env, b);
    StillReconciled(inp.env, o);
    ReconcileIdempotent(b);
    ReconcileIdempotent(o);
  }

  /** Whatever the snapshot's history gains, the full history covers. */
  lemma SnapshotHistoryCovered(inp: Input, view: Perspective, h: State, w: World)
    requires WellFormed(inp) && Reconciled(inp.env) && inp.st.api != []
    requires Saturates(Ctx(inp.st, Window(inp.historyStart), -1), HistoryStart(inp, view, Full), h)
    requires HistoryReach(Snapshot(inp), view, w)
    ensures CoversAtt(inp.st, w.att, View(h).att)
  {
    hide Good, EnvInv, HistoryStart, Closed, FireAll, RunActs, HistoryEnv, CoversEnv, CoversAtt, Saturated, InitialState, Reconciled;
    var rule := Window(inp.historyStart);
    var ctx := Ctx(inp.st, rule, -1);
    var base, over := HistoryEnv(Snapshot(inp), view, Full), HistoryEnv(inp, view, Full);
    SnapshotWellFormed(inp);
    HistorySame(inp, view, Full);
    HistoryGood(inp, view, Full);
    HistoryGood(Snapshot(inp), view, Full);
    HistorySame(Snapshot(inp), view, Full);
    SaturationGood(ctx, over, HistoryStart(inp, view, Full), h);
    HistoryGrows(inp, view, Full, h);
    HistoryTime(inp, view, Full, h);
    HistoryTokens(inp, view, Full, h);
    LoneSaturated(ctx, h);
    SnapshotWorlds(inp, view);
    CoversThenGrows(inp.st, HistoryWorld(Snapshot(inp), view), HistoryWorld(inp, view), View(h));
    SnapshotEnvs(inp, view);
    var acts := HistoryActs(Snapshot(inp), view, w);
    ActsCoveredOver(inp.st, rule, rule, base, over, HistoryWorld(Snapshot(inp), view), View(h), acts);
  }

  lemma SnapshotWorlds(inp: Input, view: Perspective)
    requires WellFormed(inp)
    ensures Covers(inp.st, HistoryWorld(Snapshot(inp), view), HistoryWorld(inp, view))
  {
    hide InitialState;
    SnapshotWellFormed(inp);
    HistoryEnvGood(Snapshot(inp), view, Full);
    HistorySame(Snapshot(inp), view, Full);
    SnapshotHistoryHeld(inp, view);
    WithinCovers(inp.st, HistoryWorld(Snapshot(inp), view).att, HistoryWorld(inp, view).att);
  }

  lemma SnapshotHistoryHeld(inp: Input, view: Perspective)
    ensures Within(HistoryWorld(Snapshot(inp), view).att, HistoryWorld(inp, view).att)
  {
    hide HistoryEnv, InitialState;
    SnapshotHeld(inp, view);
    SnapshotFacts(inp, view);
    var s, t := HistoryStart(Snapshot(inp), view, Full), HistoryStart(inp, view, Full);
    TablesWithin(s, t);
  }

  lemma SnapshotFacts(inp: Input, view: Perspective)
    ensures HistoryStart(Snapshot(inp), view, Full).facts.Keys <= HistoryStart(inp, view, Full).facts.Keys
    ensures forall id :: id in HistoryStart(Snapshot(inp), view, Full).creds ==>
      id in HistoryStart(inp, view, Full).creds && HistoryStart(inp, view, Full).creds[id] == HistoryStart(Snapshot(inp), view, Full).creds[id]
  {
    hide HistoryEnv;
    assert HistoricalFacts(Snapshot(inp), view, Full) == {} by { assert HistoricalPods(Snapshot(inp), view, Full) == {}; }
    forall f | f in InitialFacts(Snapshot(inp), view, Full)
      ensures f in InitialFacts(inp, view, Full)
    {
      var g :| g in Snapshot(inp).facts && Kept(g, view, Full) && f == FactOf(g.claim);
      assert g in inp.facts;
    }
  }

  lemma SnapshotGainCovered(inp: Input, view: Perspective, start: State, a: Att)
    requires WellFormed(inp) && Reconciled(inp.env) && inp.st.api != [] && StartsMain(inp, view, Full, start) && HistoryGain(Snapshot(inp), view, a)
    ensures CoversAtt(inp.st, a, View(start).att)
  {
    hide HistoryReach, InitialState, Saturates, HistoryStart, CoversAtt, HistoryRuns, Reconciled, Reconcile;
    SnapshotHeld(inp, view);
    if HistoryRuns(Snapshot(inp), view, Full) {
      var h :| Saturates(Ctx(inp.st, HistoryRule(inp, Full), -1), HistoryStart(inp, view, Full), h) && start == MainStart(inp, h);
      forall w | HistoryReach(Snapshot(inp), view, w)
        ensures CoversAtt(inp.st, w.att, View(start).att)
      {
        SnapshotHistoryCovered(inp, view, h, w);
        assert View(start).att == View(h).att;
      }
      GainFromWorlds(Snapshot(inp), view, a, View(start).att);
    } else {
      var g := HeldIsGained(inp, view);
      WithinThen(a, View(InitialState(inp, view, Full)).att, g);
      WithinCovers(inp.st, a, g);
      GainCovered(inp, view, Full, start, g);
      CoversAttTransitive(inp.st, a, g, View(start).att);
    }
  }

  lemma GainFromWorlds(inp: Input, view: Perspective, a: Att, big: Att)
    requires inp.st.api != [] && HistoryRuns(inp, view, Full) && HistoryGain(inp, view, a)
    requires forall w :: HistoryReach(inp, view, w) ==> CoversAtt(inp.st, w.att, big)
    ensures CoversAtt(inp.st, a, big)
  {
    hide HistoryReach, HistoryRuns;
  }

  /** The snapshot baseline reports no more than the final-state baseline. */
  lemma SnapshotWithinFinal(inp: Input, view: Perspective, snap: State, final: State, obj: Objective)
    requires WellFormed(inp) && inp.st.api != [] && ClashFree(inp, view) && Reconciled(inp.env)
    requires BaselineRun(inp, view, SnapshotOnly, snap) && Goal(obj) in snap.eph && BaselineRun(inp, view, FinalState, final)
    ensures Goal(obj) in final.eph
  {
    hide Good, EnvInv, Reconcile, HistoryGain, RunActs, Run, Violated, Reconciled, StartsMain, FinalEnv, Saturated, CoversAtt, Covers, Closed, FireAll;
    var n := |inp.actions|;
    SnapshotWellFormed(inp);
    SnapshotAsFinal(inp, view, snap);
    var a, moves, acts := BaselineAsRun(Snapshot(inp), view, snap);
    SnapshotBase(inp, n);
    var v := RunActs(inp.st, Now, World(Base(inp, n), a), acts).value;
    assert Violated(inp.st, Now, v, obj) by { BackedGoal(inp.st, v, snap, obj); }
    var start :| StartsMain(inp, view, FinalState, start) && Saturates(Ctx(inp.st, Now, 0), start.(env := FinalEnv(inp.env, inp.actions)), final);
    SameAsFull(inp, view, start);
    SnapshotGainCovered(inp, view, start, a);
    FinalIsBase(inp, n);
    assert inp.actions[..n] == inp.actions;
    FinalCovers(inp, view, start, final, a, acts, obj);
  }

  lemma BackedGoal(st: Static, v: World, s: State, obj: Objective)
    requires GoalsBacked(st, Now, v, s) && Goal(obj) in s.eph
    ensures Violated(st, Now, v, obj)
  {
    hide Violated;
  }

  lemma {:induction false} SnapshotBase(inp: Input, k: nat)
    requires k <= |inp.actions|
    ensures Base(Snapshot(inp), k) == Base(inp, k)
  {
    hide NextBase, Reconcile;
    if k > 0 { SnapshotBase(inp, k - 1); }
  }

  /** The final configuration's fixpoint covers any run there from what its start covers. */
  lemma FinalCovers(inp: Input, view: Perspective, start: State, final: State, a: Att, acts: seq<Act>, obj: Objective)
    requires WellFormed(inp) && inp.st.api != [] && ClashFree(inp, view) && Reconciled(inp.env)
    requires StartsMain(inp, view, Full, start) && CoversAtt(inp.st, a, View(start).att)
    requires Saturates(Ctx(inp.st, Now, 0), start.(env := FinalEnv(inp.env, inp.actions)), final)
    requires RunActs(inp.st, Now, World(FinalEnv(inp.env, inp.actions), a), acts).Some?
    requires Violated(inp.st, Now, RunActs(inp.st, Now, World(FinalEnv(inp.env, inp.actions), a), acts).value, obj)
    ensures Goal(obj) in final.eph
  {
    hide Good, EnvInv, Reconcile, RunActs, Violated, StartsMain, FinalEnv, Saturated, CoversAtt, Closed, FireAll, Grows, LineOf,
      Line, NoClashAt, ClashFree, Plain, Reconciled, Grand, NoCreated;
    var ctx := Ctx(inp.st, Now, 0);
    var e := FinalEnv(inp.env, inp.actions);
    var before := start.(env := e);
    ValidStatic(inp);
    var line := FinalLine(inp, view, start, final);
    StartGood(inp, view, Full, start);
    FinalEnvGood(inp, start);
    SaturationGood(ctx, e, before, final);
    LineSaturated(inp.st, inp.env.ctrls, line, ctx, 1);
    assert inp.actions[..|inp.actions|] == inp.actions;
    FinalEnvInv(inp, |inp.actions|);
    LineGrows(inp.st, line, 0, before);
    PlainCovers(inp.st, e, a, World(e, Grand(line, 0).att));
    CoversThenGrows(inp.st, World(e, a), World(e, Grand(line, 0).att), Grand(line, 1));
    var big := Grand(line, 1);
    assert big.env == final.env by { GrandEnv(line, 1); }
    ActsCovered(inp.st, Now, Now, e, World(e, a), big, acts);
    var v := RunActs(inp.st, Now, World(e, a), acts).value;
    InvShaped(e, v);
    InvShaped(e, big);
    ViolationCovered(inp.st, Now, Now, v, big, obj);
    LineGoals(inp.st, inp.env.ctrls, line, ctx, 1, obj);
  }

  lemma GrandEnv(line: seq<State>, k: nat)
    requires k < |line|
    ensures Grand(line, k).env == line[k].env
  {
  }

  /** The baseline's two saturations, history's and the final configuration's, clash-free. */
  lemma FinalLine(inp: Input, view: Perspective, start: State, final: State) returns (line: seq<State>)
    requires WellFormed(inp) && inp.st.api != [] && ClashFree(inp, view) && Reconciled(inp.env) && StartsMain(inp, view, Full, start)
    requires Saturates(Ctx(inp.st, Now, 0), start.(env := FinalEnv(inp.env, inp.actions)), final)
    ensures |line| == 2 && line[1] == final && Line(inp.st, inp.env.ctrls, line) && NoClashAt(inp.st, line, 1)
    ensures line[0].facts == start.facts && Grand(line, 0).att == View(start).att
  {
    hide Good, EnvInv, Reconcile, StartsMain, FinalEnv, Opens, Line, Succeeds, NativeEra, Retained, ClashFree, Clashes, Plain, Reconciled,
      HistoryRuns, Closed, FireAll;
    var n, ctx, before := |inp.actions|, Ctx(inp.st, Now, 0), start.(env := FinalEnv(inp.env, inp.actions));
    ValidStatic(inp);
    var ran := HistoryRuns(inp, view, Full);
    var opening := LineExists(inp, view, Full, start, [final]);
    assert Opens(inp, view, Full, ran, start, opening[0]);
    line := [opening[0], final];
    OpensGood(inp, view, Full, ran, start, line[0]);
    FirstIsEra(inp, view, Full, ran, start, line[0]);
    FirstGrand(line, start);
    FinalEnvGood(inp, start);
    SaturationGood(ctx, FinalEnv(inp.env, inp.actions), before, final);
    FinalEra(inp, view, final);
    EraSucceeds(inp, view, FirstEra(ran), n, line[0].env, final.env);
    var fs :| FireAll(ctx, before, fs) == Some(final);
    FiringsRetain(ctx, before, fs);
    LineOfMore(inp.st, inp.env.ctrls, [line[0]], before, final);
    assert [line[0]] + [final] == line;
    forall u
      ensures !Clashes(inp.st, line[0].env, line[1].env, u)
    {
      ClashFreeFirst(inp, view);
      EraUnclashed(inp, view, ran, FirstEra(ran), n, line[0].env, final.env, u);
    }
  }

  lemma ClashFreeFirst(inp: Input, view: Perspective)
    requires inp.st.api != [] && ClashFree(inp, view)
    ensures ClashFreeFrom(inp, view, FirstEra(HistoryRuns(inp, view, Full)))
  {
    hide ClashFreeFrom, HistoryRuns;
  }

  lemma FinalEra(inp: Input, view: Perspective, final: State)
    requires WellFormed(inp) && Reconciled(inp.env) && EnvInv(FinalEnv(inp.env, inp.actions), final.env)
    ensures NativeEra(inp, view, |inp.actions|, final.env)
  {
    hide Reconcile, Shaped, Native, FinalEnv, Reconciled;
    var n := |inp.actions|;
    assert inp.actions[..n] == inp.actions;
    FinalIsBase(inp, n);
    EraIsBase(inp, view, n);
    BaseReconciled(inp, n);
    ReconcileIdempotent(Base(inp, n));
  }

  lemma InvShaped(base: Env, w: World)
    requires Inv(base, w)
    ensures Shaped(w.env)
  {
  }

  lemma PlainCovers(st: Static, e: Env, a: Att, big: World)
    requires NoCreated(e) && CoversAtt(st, a, big.att)
    ensures Covers(st, World(e, a), big)
  {
  }

  // ---------------------------------------------------------------- all together

  ghost predicate GoalsWithin(a: Outcome, b: Outcome) { forall obj :: Goal(obj) in a.goals ==> Goal(obj) in b.goals }

  lemma ModesOrdered(inp: Input, view: Perspective, snap: Outcome, final: Outcome, full: Outcome, blind: Outcome)
    requires inp.st.api != [] && Sees(inp, view)
    requires !full.boundsExceeded ==> Finished(inp, view, Full, full)
    requires !blind.boundsExceeded ==> Finished(inp, view, WithoutLifecycle, blind)
    requires !final.boundsExceeded ==> exists after :: BaselineRun(inp, view, FinalState, after) && final.goals == after.eph
    requires !snap.boundsExceeded ==> exists after :: BaselineRun(inp, view, SnapshotOnly, after) && snap.goals == after.eph
    ensures !full.boundsExceeded && !blind.boundsExceeded ==> GoalsWithin(full, blind)
    ensures Reconciled(inp.env) && !final.boundsExceeded && !full.boundsExceeded ==> GoalsWithin(final, full)
    ensures Reconciled(inp.env) && !snap.boundsExceeded && !final.boundsExceeded ==> GoalsWithin(snap, final)
  {
    hide Plain, Finished, Attainable, Reconciled, BaselineRun, ClashFree;
    PlainParses(inp);
    if !full.boundsExceeded { AllGoalsAttainable(inp, view, full); }
    if !full.boundsExceeded && !blind.boundsExceeded { AllBlindGoals(inp, view, blind); }
    if Reconciled(inp.env) && !final.boundsExceeded {
      var after :| BaselineRun(inp, view, FinalState, after) && final.goals == after.eph;
      if !full.boundsExceeded {
        forall obj | Goal(obj) in final.goals
          ensures Goal(obj) in full.goals
        {
          FinalWithinFull(inp, view, after, obj);
        }
      }
      if !snap.boundsExceeded {
        var seen :| BaselineRun(inp, view, SnapshotOnly, seen) && snap.goals == seen.eph;
        forall obj | Goal(obj) in snap.goals
          ensures Goal(obj) in final.goals
        {
          SnapshotWithinFinal(inp, view, seen, after, obj);
        }
      }
    }
  }

  /** Evaluates a view in all four modes. Within bounds, with every inventory controller owning a
      Pod and no two Pods clashing, snapshot, final state, full and lifecycle-blind report ever
      more. */
  method CompareModes(inp: Input, view: Perspective) returns (snap: Outcome, final: Outcome, full: Outcome, blind: Outcome)
    requires Plain(inp)
    ensures Sees(inp, view) && !full.boundsExceeded && !blind.boundsExceeded ==> GoalsWithin(full, blind)
    ensures Sees(inp, view) && Reconciled(inp.env) && !final.boundsExceeded && !full.boundsExceeded ==> GoalsWithin(final, full)
    ensures Sees(inp, view) && Reconciled(inp.env) && !snap.boundsExceeded && !final.boundsExceeded ==> GoalsWithin(snap, final)
  {
    hide Parsed, NothingReserved, OwnIds, OneHistory, Finished, Attainable, Reconciled, BaselineRun, ClashFree;
    NonEmptyApi(inp);
    snap := RunView(inp, view, SnapshotOnly);
    final := RunView(inp, view, FinalState);
    full := RunView(inp, view, Full);
    blind := RunView(inp, view, WithoutLifecycle);
    if Sees(inp, view) { ModesOrdered(inp, view, snap, final, full, blind); }
  }

  /** Evaluates both views in full mode: the possible view reports whatever the evidence view does. */
  method CompareViews(inp: Input) returns (ev: Outcome, pv: Outcome)
    requires Plain(inp)
    ensures Sees(inp, ConservativePossible) && !ev.boundsExceeded && !pv.boundsExceeded ==> GoalsWithin(ev, pv)
  {
    hide Parsed, NothingReserved, OwnIds, OneHistory, Finished, Attainable, ClashFree;
    NonEmptyApi(inp);
    ev := RunView(inp, EvidenceSupported, Full);
    pv := RunView(inp, ConservativePossible, Full);
    PlainParses(inp);
    if Sees(inp, ConservativePossible) && !ev.boundsExceeded && !pv.boundsExceeded {
      AllGoalsAttainable(inp, EvidenceSupported, ev);
      AllGoalsAttainable(inp, ConservativePossible, pv);
      forall obj | Goal(obj) in ev.goals
        ensures Goal(obj) in pv.goals
      {
        EvidenceWithinPossible(inp, obj);
      }
    }
  }
}
