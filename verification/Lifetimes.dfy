/** The engine's own tables over the intervals: a token that has become useless stays useless, and
    an attacker cut off at the end of one interval gains nothing in any later one. The engine names
    what it creates after the interval, so, unlike in a run with arbitrary names, this includes the
    tokens of Pods the attacker created itself. */
module Lifetimes {
  import opened Model
  import opened Semantics
  import opened Attack
  import opened Rules
  import opened Shape
  import opened Fixpoint
  import opened Case
  import opened Interleavings
  import opened Exactness
  import opened Creations
  import opened DeadAttacker

  /** No replacement handed out later will have this UID. */
  predicate Outgrown(e: Env, u: Uid) {
    u.Replica? && u.owner in e.ctrls ==> u.owner in e.counters && u.k <= e.counters[u.owner]
  }

  /** Nothing created in interval `k` or later will have this UID, unless it is there already. */
  predicate Settled(k: int, e: Env, u: Uid) {
    Outgrown(e, u) && (Created(u) ==> ModelRoot(Root(u)) && (Root(u).interval < k || u in e.pods))
  }

  lemma GivenSettled(k: int, e: Env, id: string)
    ensures Settled(k, e, Given(id))
  {
  }

  /** So for every Pod the attacker controls and every Pod a held credential is bound to. */
  ghost predicate Steady(k: int, s: State) {
    && (forall u :: u in s.env.pods ==> Outgrown(s.env, u))
    && (forall u :: ControlsPod(u) in s.facts ==> Settled(k, s.env, u))
    && (forall id :: id in s.creds && s.creds[id].boundPod.Some? ==> Settled(k, s.env, s.creds[id].boundPod.value))
  }

  /** No credential in the input is bound to a UID reserved for created objects. */
  predicate InputsNative(inp: Input) {
    forall id :: id in inp.credentials && inp.credentials[id].boundPod.Some? ==> !Created(inp.credentials[id].boundPod.value)
  }

  // ---------------------------------------------------------------- within an interval

  lemma NotYetOwner(e: Env, a: Account, k: int, u: Uid)
    requires Loose(e) && ModelDeploy(a, k) !in e.ctrls && Settled(k, e, u)
    ensures u.Replica? ==> u.owner != ModelDeploy(a, k)
  {
    var c := ModelDeploy(a, k);
    assert Root(c) == c && Created(c);
    if u in e.pods && Created(u) { assert ShapedPod(e, u); }
  }

  /** A new controller's replacement, and others made along with it, take no settled UID. */
  lemma CtrlSettled(e: Env, a: Account, k: int, u: Uid)
    requires Loose(e) && ModelDeploy(a, k) !in e.ctrls && Settled(k, e, u)
    ensures var f := WithCtrl(e, a, ModelDeploy(a, k), true);
      Settled(k, f, u) && (u in f.pods <==> u in e.pods)
  {
    hide Reconcile;
    var c := ModelDeploy(a, k);
    var m := Unreconciled(e, a, c, true);
    ReconcileKeepsPods(m);
    ReconcileOnlyPods(m);
    ReconcileNumbersRise(m);
    NotYetOwner(e, a, k, u);
    assert u.Replica? && u.owner in m.ctrls ==> u.owner in m.counters && u.k <= m.counters[u.owner];
  }

  lemma CtrlOutgrown(e: Env, a: Account, k: int, u: Uid)
    requires Loose(e) && ModelDeploy(a, k) !in e.ctrls && u in WithCtrl(e, a, ModelDeploy(a, k), true).pods
    requires u in e.pods ==> Outgrown(e, u)
    ensures Outgrown(WithCtrl(e, a, ModelDeploy(a, k), true), u)
  {
    hide Reconcile;
    var c := ModelDeploy(a, k);
    var m := Unreconciled(e, a, c, true);
    ReconcileKeepsPods(m);
    ReconcileOnlyPods(m);
    ReconcileNumbersRise(m);
    if u in e.pods && u.Replica? && u.owner == c { NoStrayReplica(e, c, u.k); }
  }

  /** No firing brings a settled UID back. */
  lemma FiringSettled(ctx: Ctx, s: State, f: Firing, u: Uid)
    requires ctx.Valid() && Good(ctx.interval, s) && Ready(ctx, s, f) && Settled(ctx.interval, s.env, u)
    ensures var e := Fire(ctx, s, f).env; Settled(ctx.interval, e, u) && (u in e.pods <==> u in s.env.pods)
  {
    hide WithCtrl, CredsKnown, ModelsKnown, MayCreate, Acts;
    if f.FireCtrl? {
      CtrlSettled(s.env, f.account, ctx.interval, u);
    } else if f.FirePod? {
      assert Root(ModelPod(f.account, ctx.interval)) == ModelPod(f.account, ctx.interval);
    }
  }

  lemma FiringOutgrown(ctx: Ctx, s: State, f: Firing, u: Uid)
    requires ctx.Valid() && Good(ctx.interval, s) && Ready(ctx, s, f) && u in Fire(ctx, s, f).env.pods
    requires u in s.env.pods ==> Outgrown(s.env, u)
    ensures Outgrown(Fire(ctx, s, f).env, u)
  {
    hide WithCtrl, CredsKnown, ModelsKnown, MayCreate, Acts;
    if f.FireCtrl? { CtrlOutgrown(s.env, f.account, ctx.interval, u); }
  }

  /** Created objects in the engine's environment go back to model objects made by now. */
  lemma LiveInterval(k: int, s: State, u: Uid)
    requires Good(k, s) && u in s.env.pods && Created(u)
    ensures ModelRoot(Root(u)) && Root(u).interval <= k
  {
    hide CredsKnown;
    assert ShapedPod(s.env, u);
    if u.Replica? {
      var c := u.owner;
      assert Root(c) == c;
      assert c == ModelDeploy(c.account, c.interval);
    } else {
      assert u == ModelPod(u.account, u.interval);
    }
  }

  lemma LiveSettled(k: int, s: State, u: Uid)
    requires Good(k, s) && u in s.env.pods && Outgrown(s.env, u)
    ensures Settled(k, s.env, u)
  {
    hide Good;
    if Created(u) { LiveInterval(k, s, u); }
  }

  /** What a firing newly controls is alive afterwards. */
  lemma NewlyControlled(ctx: Ctx, s: State, f: Firing, u: Uid)
    requires ctx.Valid() && Ready(ctx, s, f) && ControlsPod(u) in Fire(ctx, s, f).facts && ControlsPod(u) !in s.facts
    ensures u in Fire(ctx, s, f).env.pods
  {
    hide Reconcile, Text, MayCreate, Acts, CanRead;
    match f {
      case FireOwn(_, _) => QuietFire(ctx, s, f);
      case FireExec(_, _) => QuietFire(ctx, s, f);
      case FirePod(_, _) => PodFire(ctx, s, f);
      case FireCtrl(_, _) => CtrlFire(ctx, s, f);
      case _ =>
    }
  }

  /** Every new token is bound to a Pod already controlled. */
  lemma NewToken(ctx: Ctx, s: State, f: Firing, id: CredId)
    requires ctx.Valid() && Ready(ctx, s, f) && id in Fire(ctx, s, f).creds
    ensures (id in s.creds && Fire(ctx, s, f).creds[id] == s.creds[id])
         || (f.FireToken? && ControlsPod(f.pod) in s.facts && Fire(ctx, s, f).creds[id].boundPod == Some(f.pod))
  {
    hide Reconcile;
  }

  lemma FiringSteady(ctx: Ctx, base: Env, s: State, f: Firing)
    requires ctx.Valid() && Good(ctx.interval, s) && EnvInv(base, s.env)
    requires Ready(ctx, s, f) && Steady(ctx.interval, s)
    ensures Steady(ctx.interval, Fire(ctx, s, f))
  {
    hide Good, EnvInv, Ready, Fire, Settled, Outgrown;
    var k, t := ctx.interval, Fire(ctx, s, f);
    FiringKeepsGood(ctx, base, s, f);
    forall u | u in t.env.pods
      ensures Outgrown(t.env, u)
    {
      FiringOutgrown(ctx, s, f, u);
    }
    forall u | Settled(k, s.env, u)
      ensures Settled(k, t.env, u)
    {
      FiringSettled(ctx, s, f, u);
    }
    forall u | ControlsPod(u) in t.facts
      ensures Settled(k, t.env, u)
    {
      if ControlsPod(u) !in s.facts {
        NewlyControlled(ctx, s, f, u);
        LiveSettled(k, t, u);
      }
    }
    forall id | id in t.creds && t.creds[id].boundPod.Some?
      ensures Settled(k, t.env, t.creds[id].boundPod.value)
    {
      NewToken(ctx, s, f, id);
    }
  }

  lemma {:induction false} FiringsSteady(ctx: Ctx, base: Env, s: State, fs: seq<Firing>)
    requires ctx.Valid() && Good(ctx.interval, s) && EnvInv(base, s.env)
    requires FireAll(ctx, s, fs).Some? && Steady(ctx.interval, s)
    ensures Steady(ctx.interval, FireAll(ctx, s, fs).value)
  {
    hide Good, EnvInv, Ready, Fire, Steady;
    if fs != [] {
      var init := fs[..|fs| - 1];
      FiringsSteady(ctx, base, s, init);
      FiringsGrow(ctx, base, s, init);
      FiringSteady(ctx, base, FireAll(ctx, s, init).value, fs[|fs| - 1]);
    }
  }

  lemma {:induction false} FiringsSettled(ctx: Ctx, base: Env, s: State, fs: seq<Firing>, u: Uid)
    requires ctx.Valid() && Good(ctx.interval, s) && EnvInv(base, s.env)
    requires FireAll(ctx, s, fs).Some? && Settled(ctx.interval, s.env, u)
    ensures var e := FireAll(ctx, s, fs).value.env;
      Settled(ctx.interval, e, u) && (u in e.pods <==> u in s.env.pods) && EnvGrew(s.env, e)
  {
    hide Good, EnvInv, Ready, Fire, Settled;
    if fs != [] {
      var init := fs[..|fs| - 1];
      FiringsSettled(ctx, base, s, init, u);
      FiringsGrow(ctx, base, s, init);
      FiringSettled(ctx, FireAll(ctx, s, init).value, fs[|fs| - 1], u);
      FiringGrowsEnv(ctx, FireAll(ctx, s, init).value, fs[|fs| - 1]);
    }
  }

  // ---------------------------------------------------------------- from one interval to the next

  lemma NextSettled(e: Env, a: Action, k: int, u: Uid)
    requires Settled(k, e, u) && (Created(u) && u in e.pods ==> Root(u).interval <= k)
    ensures var f := Reconcile(Defend(e, a));
      && Settled(k + 1, f, u) && (u in f.pods ==> u in e.pods && f.pods[u] == e.pods[u])
      && f.time >= e.time && (forall acct :: acct in f.sas ==> acct in e.sas && f.sas[acct] == e.sas[acct])
  {
    hide Reconcile, Defend;
    var d := Defend(e, a);
    DefendShrinks(e, a);
    DefendCounters(e, a);
    DefendTime(e, a);
    ReconcileKeepsPods(d);
    ReconcileOnlyPods(d);
    ReconcileNumbersRise(d);
  }

  lemma NextOutgrown(e: Env, a: Action, u: Uid)
    requires u in Reconcile(Defend(e, a)).pods && (u in e.pods ==> Outgrown(e, u))
    ensures Outgrown(Reconcile(Defend(e, a)), u)
  {
    hide Reconcile, Defend;
    var d := Defend(e, a);
    DefendShrinks(e, a);
    DefendCounters(e, a);
    ReconcileKeepsPods(d);
    ReconcileOnlyPods(d);
    ReconcileNumbersRise(d);
  }

  lemma NextSteady(k: int, s: State, a: Action)
    requires Good(k, s) && Steady(k, s)
    ensures Steady(k + 1, NextState(s, a))
  {
    hide Good, Settled, Outgrown, Reconcile, Defend;
    var t := NextState(s, a);
    forall u | u in t.env.pods
      ensures Outgrown(t.env, u)
    {
      NextOutgrown(s.env, a, u);
    }
    forall u | Settled(k, s.env, u)
      ensures Settled(k + 1, t.env, u)
    {
      if Created(u) && u in s.env.pods { LiveInterval(k, s, u); }
      NextSettled(s.env, a, k, u);
    }
  }

  // ---------------------------------------------------------------- the start

  lemma HistorySteady(inp: Input, view: Perspective)
    requires WellFormed(inp) && ReplicaFresh(inp) && InputsNative(inp)
    ensures Steady(-1, HistoryStart(inp, view, Full))
  {
    var s := HistoryStart(inp, view, Full);
    forall u | ControlsPod(u) in s.facts
      ensures Settled(-1, s.env, u)
    {
      if ControlsPod(u) in HistoricalFacts(inp, view, Full) {
        var h :| h in inp.historical && KeptHistorical(h, view, Full) && h.uid == u;
      } else {
        var f :| f in inp.facts && Kept(f, view, Full) && FactOf(f.claim) == ControlsPod(u);
        assert f.claim == ClaimPod(u) && ClaimParses(inp, f.claim);
      }
    }
  }

  lemma HistoryEndsSteady(inp: Input, view: Perspective, h: State)
    requires WellFormed(inp) && ReplicaFresh(inp) && InputsNative(inp)
    requires Saturates(Ctx(inp.st, Window(inp.historyStart), -1), HistoryStart(inp, view, Full), h)
    ensures Steady(-1, h) && Good(-1, h)
  {
    hide Good, EnvInv, Steady, HistoryStart, HistoryEnv, ReplicaFresh, InputsNative;
    var ctx := Ctx(inp.st, Window(inp.historyStart), -1);
    HistorySteady(inp, view);
    HistoryGood(inp, view, Full);
    HistorySame(inp, view, Full);
    var fs :| FireAll(ctx, HistoryStart(inp, view, Full), fs) == Some(h);
    FiringsSteady(ctx, HistoryEnv(inp, view, Full), HistoryStart(inp, view, Full), fs);
    FiringsGrow(ctx, HistoryEnv(inp, view, Full), HistoryStart(inp, view, Full), fs);
  }

  /** What history leaves behind is settled today as well. */
  lemma SettledToday(inp: Input, h: State, u: Uid)
    requires WellFormed(inp) && ReplicaFresh(inp) && Good(-1, h) && Settled(-1, h.env, u) && Todays(inp, u)
    ensures Settled(0, Reconcile(inp.env), u)
  {
    hide Good, Reconcile;
    SameCtrls(inp);
    TodaySpent(inp, u);
    if Created(u) && u in h.env.pods { LiveInterval(-1, h, u); }
  }

  lemma TodaysOutgrown(inp: Input, u: Uid)
    requires WellFormed(inp) && ReplicaFresh(inp) && u in Reconcile(inp.env).pods
    ensures Outgrown(Reconcile(inp.env), u)
  {
    hide Reconcile;
    SameCtrls(inp);
    ThereIsToday(inp, u);
    TodaySpent(inp, u);
  }

  lemma StartSteady(inp: Input, view: Perspective, start: State)
    requires WellFormed(inp) && ReplicaFresh(inp) && InputsNative(inp) && StartsMain(inp, view, Full, start)
    ensures Steady(0, start)
  {
    hide Plain, ReplicaFresh, Reconcile, Good, Settled, Outgrown, Todays, HistoryGain, HistoryStart, HistoryEnv, InitialState;
    NonEmptyApi(inp);
    PlainParses(inp);
    var a := StartBacked(inp, view, start);
    GainTodays(inp, view, a);
    forall u | u in start.env.pods
      ensures Outgrown(start.env, u)
    {
      TodaysOutgrown(inp, u);
    }
    if HistoryRuns(inp, view, Full) {
      var h :| Saturates(Ctx(inp.st, HistoryRule(inp, Full), -1), HistoryStart(inp, view, Full), h) && start == MainStart(inp, h);
      HistoryEndsSteady(inp, view, h);
      forall u | Settled(-1, h.env, u) && Todays(inp, u)
        ensures Settled(0, Reconcile(inp.env), u)
      {
        SettledToday(inp, h, u);
      }
    } else {
      InitialSteady(inp, view);
    }
  }

  lemma InitialSteady(inp: Input, view: Perspective)
    requires WellFormed(inp) && ReplicaFresh(inp) && InputsNative(inp)
    ensures Steady(0, MainStart(inp, InitialState(inp, view, Full)))
  {
    hide Reconcile;
    var s := MainStart(inp, InitialState(inp, view, Full));
    ReconcileOnlyPods(inp.env);
    forall u | u in s.env.pods
      ensures Outgrown(s.env, u)
    {
      TodaysOutgrown(inp, u);
    }
    forall u | ControlsPod(u) in s.facts
      ensures Settled(0, s.env, u)
    {
      var f :| f in inp.facts && Kept(f, view, Full) && FactOf(f.claim) == ControlsPod(u);
      assert f.claim == ClaimPod(u) && ClaimParses(inp, f.claim);
    }
  }

  // ---------------------------------------------------------------- over the intervals

  lemma {:induction false} StageSteady(inp: Input, start: State, stages: seq<State>, k: nat)
    requires WellFormed(inp) && Ladder(inp, Now, start, stages) && k <= |inp.actions|
    requires Good(0, start) && start.env == Reconcile(inp.env) && Steady(0, start)
    ensures Steady(k, stages[k]) && StageGood(inp, stages[k], k)
  {
    hide Good, EnvInv, Steady, Reconcile, Reconciled, Base;
    var ctx := Ctx(inp.st, Now, k);
    LadderGood(inp, Now, start, stages, k);
    if k == 0 {
      MainEnvGood(inp);
      FirstBase(inp);
      var fs :| FireAll(ctx, start, fs) == Some(stages[0]);
      FiringsSteady(ctx, Base(inp, 0), start, fs);
    } else {
      StageSteady(inp, start, stages, k - 1);
      var before := NextState(stages[k - 1], inp.actions[k - 1]);
      NextGoodStage(inp, stages[k - 1], k - 1);
      NextSteady(k - 1, stages[k - 1], inp.actions[k - 1]);
      assert Saturates(Ctx(inp.st, Now, (k - 1) + 1), before, stages[(k - 1) + 1]);
      var fs :| FireAll(ctx, before, fs) == Some(stages[k]);
      FiringsSteady(ctx, Base(inp, k), before, fs);
    }
  }

  lemma FirstBase(inp: Input)
    requires WellFormed(inp)
    ensures Base(inp, 0) == Reconcile(inp.env)
  {
  }

  lemma NextGoodStage(inp: Input, s: State, k: nat)
    requires WellFormed(inp) && k < |inp.actions| && StageGood(inp, s, k)
    ensures var t := NextState(s, inp.actions[k]);
      Good(k + 1, t) && EnvInv(Base(inp, k + 1), t.env)
  {
    hide Good, EnvInv, Reconcile, Reconciled;
    NextGood(Base(inp, k), k, s, inp.actions[k]);
  }

  /** Lapsed, orphaned or bound to a Pod that is gone: none of this is undone. */
  lemma StaysUnusable(st: Static, e: Env, f: Env, c: Cred)
    requires !CanUse(st, e, c, Now) && e.time <= f.time && forall a :: a in f.sas ==> a in e.sas && f.sas[a] == e.sas[a]
    requires c.boundPod.Some? && c.boundPod.value in f.pods ==>
      c.boundPod.value in e.pods && f.pods[c.boundPod.value] == e.pods[c.boundPod.value]
    ensures !CanUse(st, f, c, Now)
  {
  }

  ghost predicate Useless(inp: Input, k: int, s: State, c: Cred) {
    !CanUse(inp.st, s.env, c, Now) && (c.boundPod.Some? ==> Settled(k, s.env, c.boundPod.value))
  }

  lemma NextUseless(inp: Input, k: int, s: State, a: Action, c: Cred)
    requires Good(k, s) && Useless(inp, k, s, c)
    ensures Useless(inp, k + 1, NextState(s, a), c)
  {
    hide Good, Settled, CanUse, Reconcile, Defend;
    var t := NextState(s, a);
    if c.boundPod.Some? {
      var u := c.boundPod.value;
      if Created(u) && u in s.env.pods { LiveInterval(k, s, u); }
      NextSettled(s.env, a, k, u);
    } else {
      GivenSettled(k, s.env, "");
      NextSettled(s.env, a, k, Given(""));
    }
    StaysUnusable(inp.st, s.env, t.env, c);
  }

  lemma SaturationUseless(inp: Input, ctx: Ctx, base: Env, s: State, t: State, c: Cred)
    requires ctx.Valid() && Good(ctx.interval, s) && EnvInv(base, s.env)
    requires Saturates(ctx, s, t) && Useless(inp, ctx.interval, s, c)
    ensures Useless(inp, ctx.interval, t, c)
  {
    hide Good, EnvInv, Settled, CanUse, FireAll;
    var fs :| FireAll(ctx, s, fs) == Some(t);
    GivenSettled(ctx.interval, s.env, "");
    FiringsSettled(ctx, base, s, fs, if c.boundPod.Some? then c.boundPod.value else Given(""));
    StaysUnusable(inp.st, s.env, t.env, c);
  }

  lemma {:induction false} UselessLater(inp: Input, start: State, stages: seq<State>, i: nat, j: nat, c: Cred)
    requires WellFormed(inp) && Ladder(inp, Now, start, stages) && i <= j <= |inp.actions|
    requires Good(0, start) && start.env == Reconcile(inp.env) && Useless(inp, i, stages[i], c)
    ensures Useless(inp, j, stages[j], c)
    decreases j
  {
    hide Good, EnvInv, Reconcile, Reconciled, Base, Useless, Saturates;
    if i < j {
      UselessLater(inp, start, stages, i, j - 1, c);
      LadderGood(inp, Now, start, stages, j - 1);
      NextGoodStage(inp, stages[j - 1], j - 1);
      NextUseless(inp, j - 1, stages[j - 1], inp.actions[j - 1], c);
      assert Saturates(Ctx(inp.st, Now, (j - 1) + 1), NextState(stages[j - 1], inp.actions[j - 1]), stages[(j - 1) + 1]);
      SaturationUseless(inp, Ctx(inp.st, Now, j), Base(inp, j), NextState(stages[j - 1], inp.actions[j - 1]), stages[j], c);
    }
  }

  lemma RunSteady(inp: Input, view: Perspective, stages: seq<State>) returns (start: State)
    requires WellFormed(inp) && ReplicaFresh(inp) && InputsNative(inp) && inp.st.api != [] && EngineRun(inp, view, Full, stages)
    ensures Ladder(inp, Now, start, stages) && |stages| == |inp.actions| + 1
    ensures Good(0, start) && start.env == Reconcile(inp.env) && Steady(0, start)
  {
    hide Plain, ReplicaFresh, StartsMain, Reconcile, Good, Steady;
    start :| StartsMain(inp, view, Full, start) && Ladder(inp, Now, start, stages);
    StartGood(inp, view, Full, start);
    StartSteady(inp, view, start);
    LadderLength(inp, Now, start, stages);
  }

  /** A credential held at the end of some interval and not usable there is usable at the end of no
      later one. */
  lemma EngineTokensDie(inp: Input, view: Perspective, stages: seq<State>, i: nat, j: nat, id: CredId)
    requires WellFormed(inp) && ReplicaFresh(inp) && InputsNative(inp) && inp.st.api != [] && EngineRun(inp, view, Full, stages)
    requires i <= j <= |inp.actions| && |stages| == |inp.actions| + 1 && id in stages[i].creds
    requires !CanUse(inp.st, stages[i].env, stages[i].creds[id], Now)
    ensures !CanUse(inp.st, stages[j].env, stages[i].creds[id], Now)
  {
    hide Plain, ReplicaFresh, InputsNative, EngineRun, Ladder, Good, CanUse, Reconcile, Settled;
    var start := RunSteady(inp, view, stages);
    StageSteady(inp, start, stages, i);
    UselessLater(inp, start, stages, i, j, stages[i].creds[id]);
  }

  // ---------------------------------------------------------------- cut off for good

  /** With a dead attacker only what is already known is still drawn on. */
  lemma DeadReady(ctx: Ctx, base: Env, s: State, f: Firing)
    requires ctx.Valid() && ctx.rule.Now? && Ready(ctx, s, f) && Dead(ctx.st, View(s))
    requires EnvInv(base, s.env) && Reconciled(base) && OwnersLive(base)
    ensures f.FireDownstream? || f.FireUse?
  {
    hide EnvInv, Reconciled, OwnersLive, MayCreate, MayExec, CanRead, CredentialUsable;
    var w := View(s);
    match f {
      case FireOwn(c, u) =>
        assert c in w.att.ctrls;
        OwnerLive(base, w, u);
      case FireToken(u, aud) => TokenAlive(ctx, s, u, aud);
      case FireExec(id, _) => ActsAlive(ctx, s, id);
      case FireLearn(id, _) => ActsAlive(ctx, s, id);
      case FireRead(id, _) => ActsAlive(ctx, s, id);
      case FirePod(id, _) => ActsAlive(ctx, s, id);
      case FireCtrl(id, _) => ActsAlive(ctx, s, id);
      case _ =>
    }
  }

  lemma ActsAlive(ctx: Ctx, s: State, id: CredId)
    requires ctx.rule.Now? && Acts(ctx, s, id)
    ensures !Dead(ctx.st, View(s))
  {
    UseTimeIsExact(ctx, s.env, s.creds[id]);
    assert s.creds[id] in View(s).att.creds;
  }

  lemma TokenAlive(ctx: Ctx, s: State, u: Uid, aud: string)
    requires ctx.st.api != [] && Ready(ctx, s, FireToken(u, aud))
    ensures !Dead(ctx.st, View(s))
  {
    hide CanUse;
    assert u in View(s).att.pods;
  }

  /** The attacker's hold on things, as opposed to what it does with them. */
  predicate SameHold(s: State, t: State) {
    t.env == s.env && t.creds == s.creds && View(t).att == View(s).att
  }

  lemma QuietHold(ctx: Ctx, s: State, f: Firing)
    requires ctx.Valid() && Ready(ctx, s, f) && (f.FireDownstream? || f.FireUse?)
    ensures SameHold(s, Fire(ctx, s, f)) && forall g :: g in Fire(ctx, s, f).eph && g.CanReadSecret? ==> g in s.eph
  {
    QuietFire(ctx, s, f);
    var t := Fire(ctx, s, f);
    assert View(t).att.pods == View(s).att.pods;
    assert View(t).att.ctrls == View(s).att.ctrls;
    assert View(t).att.know == View(s).att.know;
  }

  lemma {:induction false} DeadFirings(ctx: Ctx, base: Env, s: State, fs: seq<Firing>)
    requires ctx.Valid() && ctx.rule.Now? && Dead(ctx.st, View(s)) && FireAll(ctx, s, fs).Some?
    requires EnvInv(base, s.env) && Reconciled(base) && OwnersLive(base)
    ensures SameHold(s, FireAll(ctx, s, fs).value)
    ensures forall g :: g in FireAll(ctx, s, fs).value.eph && g.CanReadSecret? ==> g in s.eph
  {
    hide EnvInv, Reconciled, OwnersLive, Dead, Ready, Fire;
    if fs != [] {
      var init := fs[..|fs| - 1];
      DeadFirings(ctx, base, s, init);
      var m := FireAll(ctx, s, init).value;
      assert View(m) == View(s);
      DeadReady(ctx, base, m, fs[|fs| - 1]);
      QuietHold(ctx, m, fs[|fs| - 1]);
    }
  }

  lemma DeadNext(st: Static, k: int, s: State, a: Action)
    requires Good(k, s) && Steady(k, s) && Dead(st, View(s))
    ensures Dead(st, View(NextState(s, a)))
  {
    hide Good, Settled, Outgrown, Reconcile, Defend, CanUse;
    var t := NextState(s, a);
    forall u | Settled(k, s.env, u)
      ensures u in t.env.pods ==> u in s.env.pods && t.env.pods[u] == s.env.pods[u]
      ensures t.env.time >= s.env.time && forall acct :: acct in t.env.sas ==> acct in s.env.sas && t.env.sas[acct] == s.env.sas[acct]
    {
      if Created(u) && u in s.env.pods { LiveInterval(k, s, u); }
      NextSettled(s.env, a, k, u);
    }
    NextNative(s.env, a, k);
    forall c | c in View(t).att.creds
      ensures !CanUse(st, t.env, c, Now)
    {
      var id :| id in s.creds && s.creds[id] == c;
      assert c in View(s).att.creds;
      StaysUnusable(st, s.env, t.env, c);
    }
    forall u | u in View(t).att.pods && u in t.env.pods
      ensures t.env.pods[u].Acct() !in t.env.sas
    {
      assert ControlsPod(u) in s.facts && u in View(s).att.pods;
    }
    forall c | c in View(t).att.ctrls
      ensures c !in t.env.ctrls
    {
      assert c in View(s).att.ctrls;
    }
  }

  lemma NextNative(e: Env, a: Action, k: int)
    ensures var f := Reconcile(Defend(e, a));
      && f.time >= e.time && (forall acct :: acct in f.sas ==> acct in e.sas && f.sas[acct] == e.sas[acct])
      && forall c :: c in f.ctrls ==> c in e.ctrls
  {
    hide Reconcile, Defend;
    NextSettled(e, a, k, Given(""));
    DefendShrinks(e, a);
    ReconcileOnlyPods(Defend(e, a));
  }

  lemma {:induction false} BaseOwnersLive(inp: Input, k: nat)
    requires WellFormed(inp) && k <= |inp.actions|
    ensures OwnersLive(Base(inp, k)) && Reconciled(Base(inp, k))
  {
    hide Reconcile, NextBase, OwnersLive, Reconciled;
    BaseReconciled(inp, k);
    if k == 0 {
      MainOwnersLive(inp);
    } else {
      BaseOwnersLive(inp, k - 1);
      NextOwnersLive(Base(inp, k - 1), inp.actions[k - 1]);
    }
  }

  lemma DeadStage(inp: Input, start: State, stages: seq<State>, k: nat)
    requires WellFormed(inp) && Ladder(inp, Now, start, stages) && k < |inp.actions|
    requires Good(0, start) && start.env == Reconcile(inp.env) && Steady(0, start) && Dead(inp.st, View(stages[k]))
    ensures var t := stages[k + 1];
      Dead(inp.st, View(t)) && View(t).att == View(stages[k]).att && forall g :: g in t.eph ==> !g.CanReadSecret?
  {
    hide Good, EnvInv, Steady, Reconcile, Reconciled, OwnersLive, Base, Dead, Closed, FireAll;
    var before, ctx := NextState(stages[k], inp.actions[k]), Ctx(inp.st, Now, k + 1);
    StageSteady(inp, start, stages, k);
    NextGoodStage(inp, stages[k], k);
    DeadNext(inp.st, k, stages[k], inp.actions[k]);
    BaseOwnersLive(inp, k + 1);
    assert Saturates(ctx, before, stages[k + 1]);
    var fs :| FireAll(ctx, before, fs) == Some(stages[k + 1]);
    DeadFirings(ctx, Base(inp, k + 1), before, fs);
    assert View(stages[k + 1]) == View(before);
  }

  /** Once no credential in the tables is usable, no controlled Pod can yield a token and no
      controlled controller is left, no later interval adds to what is held or reads a Secret. */
  lemma {:induction false} EngineDeadForGood(inp: Input, view: Perspective, stages: seq<State>, i: nat, j: nat, key: SecretKey)
    requires WellFormed(inp) && ReplicaFresh(inp) && InputsNative(inp) && inp.st.api != [] && EngineRun(inp, view, Full, stages)
    requires i < j <= |inp.actions| && |stages| == |inp.actions| + 1 && Dead(inp.st, View(stages[i]))
    ensures Dead(inp.st, View(stages[j])) && View(stages[j]).att == View(stages[i]).att && CanReadSecret(key) !in stages[j].eph
    decreases j
  {
    hide Plain, ReplicaFresh, InputsNative, EngineRun, Ladder, Good, Dead, Reconcile, Steady;
    var start := RunSteady(inp, view, stages);
    if i + 1 < j { EngineDeadForGood(inp, view, stages, i, j - 1, key); }
    DeadStage(inp, start, stages, j - 1);
  }
}
