/** What holds at the end of every interval of an engine run, and what a ladder of saturated
    worlds says about all interleavings of single attacker steps with the defender. */
module Interleavings {
  import opened Model
  import opened Semantics
  import opened Attack
  import opened Rules
  import opened Shape
  import opened Cover
  import opened Fixpoint
  import opened Case

  // ---------------------------------------------------------------- starting points are good

  lemma NonEmptyApi(inp: Input)
    requires Plain(inp)
    ensures inp.st.api != []
  {
  }

  lemma PlainParses(inp: Input)
    requires Plain(inp)
    ensures Parsed(inp)
  {
  }

  lemma SameCtrls(inp: Input)
    requires Plain(inp)
    ensures forall c :: c in Reconcile(inp.env).ctrls ==> !Created(c)
  {
    ReconcileOnlyPods(inp.env);
  }

  lemma NativeEnvInv(e: Env)
    requires NoCreated(e) && e.counters == map[]
    ensures EnvInv(e, e) && OnlyModels(e)
  {
    assert Native(e).pods == e.pods && Native(e).ctrls == e.ctrls && Native(e).counters == e.counters;
  }

  lemma InitialGood(inp: Input, view: Perspective, mode: Mode)
    requires Plain(inp)
    ensures CredsKnown(InitialState(inp, view, mode))
    ensures forall f :: f in InitialFacts(inp, view, mode) ==>
      Persistent(f) && !(f.ControlsPod? && Created(f.pod)) && !(f.ControlsController? && Created(f.ctrl))
  {
  }

  lemma HistoryEnvGood(inp: Input, view: Perspective, mode: Mode)
    requires Plain(inp)
    ensures NoCreated(HistoryEnv(inp, view, mode))
    ensures EnvInv(HistoryEnv(inp, view, mode), HistoryEnv(inp, view, mode)) && OnlyModels(HistoryEnv(inp, view, mode))
  {
    NativeEnvInv(HistoryEnv(inp, view, mode));
  }

  lemma HistoryGood(inp: Input, view: Perspective, mode: Mode)
    requires Plain(inp)
    ensures Good(-1, HistoryStart(inp, view, mode))
    ensures EnvInv(HistoryEnv(inp, view, mode), HistoryEnv(inp, view, mode))
  {
    hide EnvInv, Shaped, Text, HistoryEnv;
    InitialGood(inp, view, mode);
    HistoryEnvGood(inp, view, mode);
    var s := HistoryStart(inp, view, mode);
    assert forall f :: f in s.facts <==> f in HistoricalFacts(inp, view, mode) || f in InitialFacts(inp, view, mode);
    assert forall f :: f in HistoricalFacts(inp, view, mode) ==> f.ControlsPod? && !Created(f.pod);
    NoModelsKnown(-1, s);
    assert CredsKnown(s);
  }

  lemma NoModelsKnown(k: int, s: State)
    requires NoCreated(s.env)
    requires forall f :: f in s.facts ==> !(f.ControlsPod? && Created(f.pod)) && !(f.ControlsController? && Created(f.ctrl))
    ensures ModelsKnown(k, s)
  {
  }

  lemma MainEnvGood(inp: Input)
    requires Plain(inp)
    ensures EnvInv(Reconcile(inp.env), Reconcile(inp.env)) && Reconciled(Reconcile(inp.env))
    ensures OnlyModels(Reconcile(inp.env))
    ensures forall u :: u in Reconcile(inp.env).pods ==> !Created(u)
  {
    NativeEnvInv(inp.env);
    ReconcileShapes(inp.env);
    NativeReconcile(inp.env);
    ReconcileKeepsPods(inp.env);
    ReconcileTwice(inp.env);
    ReconcileServesAll(inp.env);
  }

  lemma MainStartGood(inp: Input, s: State)
    requires Plain(inp) && CredsKnown(s)
    requires forall f :: f in s.facts ==> Persistent(f)
    requires forall a, i :: ControlsPod(ModelPod(a, i)) in s.facts ==> i < 0
    requires forall a, i :: ControlsController(ModelDeploy(a, i)) in s.facts ==> i < 0
    ensures Good(0, MainStart(inp, s))
  {
    MainEnvGood(inp);
    assert CredsKnown(MainStart(inp, s));
  }

  lemma StartGood(inp: Input, view: Perspective, mode: Mode, start: State)
    requires Plain(inp) && StartsMain(inp, view, mode, start)
    ensures Good(0, start) && start.env == Reconcile(inp.env)
  {
    if HistoryRuns(inp, view, mode) {
      var h :| Saturates(Ctx(inp.st, HistoryRule(inp, mode), -1), HistoryStart(inp, view, mode), h) && start == MainStart(inp, h);
      HistoryLeavesGood(inp, view, mode, h);
    } else {
      InitialGood(inp, view, mode);
      MainStartGood(inp, InitialState(inp, view, mode));
    }
  }

  lemma HistoryLeavesGood(inp: Input, view: Perspective, mode: Mode, h: State)
    requires Plain(inp) && Saturates(Ctx(inp.st, HistoryRule(inp, mode), -1), HistoryStart(inp, view, mode), h)
    ensures Good(0, MainStart(inp, h))
  {
    var ctx := Ctx(inp.st, HistoryRule(inp, mode), -1);
    var fs :| FireAll(ctx, HistoryStart(inp, view, mode), fs) == Some(h);
    HistoryGood(inp, view, mode);
    FiringsGrow(ctx, HistoryEnv(inp, view, mode), HistoryStart(inp, view, mode), fs);
    MainStartGood(inp, h);
  }

  // ---------------------------------------------------------------- every interval is good

  lemma ShrunkModels(k: int, s: State, d: Env)
    requires ModelsKnown(k, s) && OnlyModels(s.env) && Shrinks(d, s.env)
    ensures ModelsKnown(k + 1, State(Reconcile(d), s.creds, s.facts, map[])) && OnlyModels(Reconcile(d))
  {
    hide Reconcile;
    ReconcileKeepsPods(d);
    ReconcileOnlyPods(d);
    assert forall u :: u in Reconcile(d).pods && Standalone(u) ==> u in d.pods;
  }

  lemma NextGood(base: Env, k: int, s: State, a: Action)
    requires Good(k, s) && EnvInv(base, s.env) && NativeAction(a) && Reconciled(base)
    ensures Good(k + 1, NextState(s, a)) && EnvInv(NextBase(base, a), NextState(s, a).env) && Reconciled(NextBase(base, a))
  {
    DefendKeepsInv(base, World(s.env, Att({}, {}, {}, {})), a);
    DefendShrinks(s.env, a);
    ShrunkModels(k, s, Defend(s.env, a));
    assert CredsKnown(NextState(s, a));
  }

  lemma NextGoodHere(inp: Input, s: State, k: nat)
    requires WellFormed(inp) && k < |inp.actions| && StageGood(inp, s, k)
    ensures Shaped(s.env) && Good(k + 1, NextState(s, inp.actions[k])) && EnvInv(Base(inp, k + 1), NextState(s, inp.actions[k]).env)
    ensures inp.st.Valid()
  {
    hide EnvInv, Reconcile, Defend, Reconciled;
    NextGood(Base(inp, k), k, s, inp.actions[k]);
  }

  lemma SaturationGood(ctx: Ctx, base: Env, before: State, after: State)
    requires ctx.Valid() && Good(ctx.interval, before) && EnvInv(base, before.env)
    requires Saturates(ctx, before, after)
    ensures Good(ctx.interval, after) && EnvInv(base, after.env) && Extends(before, after)
  {
    var fs :| FireAll(ctx, before, fs) == Some(after);
    FiringsGrow(ctx, base, before, fs);
  }

  ghost predicate StageGood(inp: Input, s: State, k: nat)
    requires k <= |inp.actions|
  {
    Good(k, s) && EnvInv(Base(inp, k), s.env) && Reconciled(Base(inp, k))
  }

  lemma FirstStage(inp: Input, rule: UseRule, start: State, stages: seq<State>)
    requires Plain(inp) && Ladder(inp, rule, start, stages)
    requires Good(0, start) && start.env == Reconcile(inp.env)
    ensures StageGood(inp, stages[0], 0) && Extends(start, stages[0])
  {
    MainEnvGood(inp);
    SaturationGood(Ctx(inp.st, rule, 0), Base(inp, 0), start, stages[0]);
  }

  lemma NextStage(inp: Input, rule: UseRule, start: State, stages: seq<State>, k: nat)
    requires Plain(inp) && Ladder(inp, rule, start, stages) && k < |inp.actions| && StageGood(inp, stages[k], k)
    ensures StageGood(inp, stages[k + 1], k + 1) && Extends(NextState(stages[k], inp.actions[k]), stages[k + 1])
  {
    var a := inp.actions[k];
    NextGood(Base(inp, k), k, stages[k], a);
    SaturationGood(Ctx(inp.st, rule, k + 1), Base(inp, k + 1), NextState(stages[k], a), stages[k + 1]);
  }

  lemma {:induction false} LadderGood(inp: Input, rule: UseRule, start: State, stages: seq<State>, k: nat)
    requires Plain(inp) && Ladder(inp, rule, start, stages) && k <= |inp.actions|
    requires Good(0, start) && start.env == Reconcile(inp.env)
    ensures StageGood(inp, stages[k], k)
  {
    hide Good, EnvInv, Saturates;
    if k == 0 {
      FirstStage(inp, rule, start, stages);
    } else {
      LadderGood(inp, rule, start, stages, k - 1);
      NextStage(inp, rule, start, stages, k - 1);
    }
  }

  // ---------------------------------------------------------------- soundness over all runs

  /** One saturated world per interval, each keeping what the previous one held. */
  ghost predicate WorldLadder(inp: Input, bigs: seq<World>)
    requires inp.st.api != []
  {
    && |bigs| == |inp.actions| + 1
    && (forall k :: 0 <= k < |bigs| ==> Rung(inp, k, bigs[k]))
    && (forall k :: 0 <= k < |inp.actions| ==> Grows(inp.st, DefendWorld(bigs[k], inp.actions[k]), bigs[k + 1]))
  }

  ghost predicate Rung(inp: Input, k: nat, w: World)
    requires inp.st.api != [] && k <= |inp.actions|
  {
    Inv(Base(inp, k), w) && Saturated(inp.st, Now, w)
  }

  lemma {:induction false} BaseReconciled(inp: Input, k: nat)
    requires Plain(inp) && k <= |inp.actions|
    ensures Reconciled(Base(inp, k))
  {
    if k == 0 {
      MainEnvGood(inp);
    } else {
      ReconcileServesAll(Defend(Base(inp, k - 1), inp.actions[k - 1]));
    }
  }

  /** Wherever an interleaving stands, the saturated world of its interval covers it. */
  lemma {:induction false} RunCovered(inp: Input, bigs: seq<World>, a0: Att, moves: seq<Move>)
    requires Plain(inp) && WorldLadder(inp, bigs)
    requires Covers(inp.st, World(Reconcile(inp.env), a0), bigs[0])
    requires Run(inp.st, Now, inp.actions, Stage(0, World(Reconcile(inp.env), a0)), moves).Some?
    ensures var s := Run(inp.st, Now, inp.actions, Stage(0, World(Reconcile(inp.env), a0)), moves).value;
      s.phase <= |inp.actions| && Inv(Base(inp, s.phase), s.world) && Covers(inp.st, s.world, bigs[s.phase])
  {
    hide EnvInv, Covers, Enabled, Do, Reconcile, Defend, Saturated, Grows, Reconciled;
    var first := Stage(0, World(Reconcile(inp.env), a0));
    if moves == [] {
      MainEnvGood(inp);
    } else {
      RunCovered(inp, bigs, a0, moves[..|moves| - 1]);
      var s := Run(inp.st, Now, inp.actions, first, moves[..|moves| - 1]).value;
      assert Rung(inp, s.phase, bigs[s.phase]);
      match moves[|moves| - 1] {
        case Attacker(act) =>
          StepCovered(inp.st, Now, Now, Base(inp, s.phase), s.world, bigs[s.phase], act);
        case Defender =>
          DefenderCovered(inp, bigs, s);
      }
    }
  }

  lemma DefenderCovered(inp: Input, bigs: seq<World>, s: Stage)
    requires Plain(inp) && WorldLadder(inp, bigs) && s.phase < |inp.actions|
    requires Inv(Base(inp, s.phase), s.world) && Covers(inp.st, s.world, bigs[s.phase])
    ensures var w := DefendWorld(s.world, inp.actions[s.phase]);
      Inv(Base(inp, s.phase + 1), w) && Covers(inp.st, w, bigs[s.phase + 1])
  {
    hide Covers, Reconcile, Defend, Saturated, Grows, Reconciled, Shaped, Native;
    var k, a := s.phase, inp.actions[s.phase];
    assert Rung(inp, k, bigs[k]);
    BaseReconciled(inp, k);
    DefendKeepsInv(Base(inp, k), s.world, a);
    DefendCovered(inp.st, s.world, bigs[k], a);
    CoversThenGrows(inp.st, DefendWorld(s.world, a), DefendWorld(bigs[k], a), bigs[k + 1]);
  }

  /** Any objective an interleaving violates at the final phase is violated in the last rung. */
  lemma FinalCovered(inp: Input, bigs: seq<World>, a0: Att, moves: seq<Move>, obj: Objective)
    requires Plain(inp) && WorldLadder(inp, bigs)
    requires Covers(inp.st, World(Reconcile(inp.env), a0), bigs[0])
    requires Run(inp.st, Now, inp.actions, Stage(0, World(Reconcile(inp.env), a0)), moves).Some?
    requires var s := Run(inp.st, Now, inp.actions, Stage(0, World(Reconcile(inp.env), a0)), moves).value;
      s.phase == |inp.actions| && Violated(inp.st, Now, s.world, obj)
    ensures Violated(inp.st, Now, bigs[|inp.actions|], obj)
  {
    hide Run, Reconcile, Covers, Saturated, Grows, Violated;
    var n := |inp.actions|;
    var w := Run(inp.st, Now, inp.actions, Stage(0, World(Reconcile(inp.env), a0)), moves).value.world;
    RunCovered(inp, bigs, a0, moves);
    assert Rung(inp, n, bigs[n]);
    CoversEnvOf(inp.st, w, bigs[n]);
    SamePhase(Base(inp, n), w, bigs[n]);
    ViolationCovered(inp.st, Now, Now, w, bigs[n], obj);
  }

  lemma CoversEnvOf(st: Static, w: World, big: World)
    requires Covers(st, w, big)
    ensures CoversEnv(w.env, big)
  {
  }

  lemma NativeCovered(inp: Input, a: Att, big: World)
    requires Plain(inp) && CoversAtt(inp.st, a, big.att)
    ensures Covers(inp.st, World(Reconcile(inp.env), a), big)
  {
    MainEnvGood(inp);
  }

  lemma LadderLength(inp: Input, rule: UseRule, start: State, stages: seq<State>)
    requires inp.st.api != [] && Ladder(inp, rule, start, stages)
    ensures |stages| == |inp.actions| + 1
  {
  }
}
