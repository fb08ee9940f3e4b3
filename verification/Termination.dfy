/** Why the engine's saturation stops without its derivation cap: every firing brings the state
    lexicographically closer to a fixpoint. */
module Termination {
  import opened Model
  import opened Semantics
  import opened Attack
  import opened Rules
  import opened Fixpoint
  import opened Canonical
  import opened Case

  function PodlessAccounts(s: State): set<Account> { set a | a in s.env.sas && !ControlsLivePod(s, a) }
  function CtrllessAccounts(s: State): set<Account> { set a | a in s.env.sas && !ControlsLiveCtrl(s, a) }
  function UncontrolledPods(s: State): set<Uid> { set u | u in s.env.pods && ControlsPod(u) !in s.facts }
  function UnknownSecrets(s: State): set<SecretKey> { set k | k in s.env.secrets && KnowsSecret(Known(k, s.env.secrets[k])) !in s.facts }

  function StaleTokens(ctx: Ctx, s: State): set<(Uid, string)>
    requires ctx.st.api != []
  {
    set u, aud | u in s.env.pods && aud in Audiences(ctx.st, s.env.pods[u]) && Ready(ctx, s, FireToken(u, aud)) :: (u, aud)
  }

  function UnusedSources(s: State): set<(Fact, string)> {
    set f, name | f in s.facts && name in s.env.services && f.KnowsSecret? && s.env.services[name].source == f.known.secret
      && PossessesDownstream(name, f.known.version) !in s.facts :: (f, name)
  }

  function UnreadSecrets(s: State): set<SecretKey> { set k | k in s.env.secrets && CanReadSecret(k) !in s.eph }
  function UnusedServices(s: State): set<string> { set n | n in s.env.services && CanUseDownstream(n) !in s.eph }

  datatype Distance = Distance(workloads: nat, pods: nat, secrets: nat, tokens: nat, sources: nat, goals: nat)

  function DistanceOf(ctx: Ctx, s: State): Distance
    requires ctx.st.api != []
  {
    Distance(|PodlessAccounts(s)| + |CtrllessAccounts(s)|, |UncontrolledPods(s)|, |UnknownSecrets(s)|,
             |StaleTokens(ctx, s)|, |UnusedSources(s)|, |UnreadSecrets(s)| + |UnusedServices(s)|)
  }

  predicate Below(x: Distance, y: Distance) {
    x.workloads < y.workloads || (x.workloads == y.workloads && (
    x.pods < y.pods || (x.pods == y.pods && (
    x.secrets < y.secrets || (x.secrets == y.secrets && (
    x.tokens < y.tokens || (x.tokens == y.tokens && (
    x.sources < y.sources || (x.sources == y.sources && x.goals < y.goals)))))))))
  }

  lemma WorkloadsKept(ctx: Ctx, s: State, f: Firing)
    requires ctx.Valid() && Ready(ctx, s, f)
    ensures PodlessAccounts(Fire(ctx, s, f)) <= PodlessAccounts(s) && CtrllessAccounts(Fire(ctx, s, f)) <= CtrllessAccounts(s)
    ensures |PodlessAccounts(Fire(ctx, s, f))| <= |PodlessAccounts(s)| && |CtrllessAccounts(Fire(ctx, s, f))| <= |CtrllessAccounts(s)|
  {
    hide Ready, Reconcile, Derive, Concludes;
    var t := Fire(ctx, s, f);
    EnvKept(ctx, s, f);
    FactsGrow(ctx, s, f);
    forall a | ControlsLivePod(s, a)
      ensures ControlsLivePod(t, a)
    {
      var x :| x in s.facts && x.ControlsPod? && x.pod.ModelPod? && x.pod in s.env.pods && s.env.pods[x.pod].Acct() == a;
      assert x in t.facts.Keys;
    }
    forall a | ControlsLiveCtrl(s, a)
      ensures ControlsLiveCtrl(t, a)
    {
      var x :| x in s.facts && x.ControlsController? && x.ctrl.ModelDeploy? && x.ctrl in s.env.ctrls && s.env.ctrls[x.ctrl].Acct() == a;
      assert x in t.facts.Keys;
    }
    SmallerSet(PodlessAccounts(t), PodlessAccounts(s));
    SmallerSet(CtrllessAccounts(t), CtrllessAccounts(s));
  }

  lemma EnvKept(ctx: Ctx, s: State, f: Firing)
    requires ctx.Valid() && Ready(ctx, s, f)
    ensures var t := Fire(ctx, s, f);
      && t.env.sas == s.env.sas && t.env.secrets == s.env.secrets && t.env.services == s.env.services && t.env.time == s.env.time
      && (forall u :: u in s.env.pods ==> u in t.env.pods && t.env.pods[u] == s.env.pods[u])
      && (forall c :: c in s.env.ctrls ==> c in t.env.ctrls && t.env.ctrls[c] == s.env.ctrls[c])
  {
    hide Reconcile, Derive, Concludes;
    if f.FireCtrl? {
      var m := Unreconciled(s.env, f.account, ModelDeploy(f.account, ctx.interval), true);
      ReconcileKeepsPods(m);
      ReconcileOnlyPods(m);
    }
  }

  lemma CreationBelow(ctx: Ctx, s: State, f: Firing)
    requires ctx.Valid() && Ready(ctx, s, f) && (f.FirePod? || f.FireCtrl?)
    ensures Below(DistanceOf(ctx, Fire(ctx, s, f)), DistanceOf(ctx, s))
  {
    hide Reconcile, Derive, StaleTokens, UncontrolledPods, UnknownSecrets, UnusedSources, UnreadSecrets, UnusedServices;
    var t := Fire(ctx, s, f);
    WorkloadsKept(ctx, s, f);
    EnvKept(ctx, s, f);
    if f.FirePod? {
      assert ControlsPod(ModelPod(f.account, ctx.interval)) in t.facts;
      assert ControlsLivePod(t, f.account);
      assert f.account in PodlessAccounts(s) && f.account !in PodlessAccounts(t);
      SmallerSet(PodlessAccounts(t), PodlessAccounts(s));
    } else {
      var c := ModelDeploy(f.account, ctx.interval);
      ReconcileOnlyPods(Unreconciled(s.env, f.account, c, true));
      assert ControlsController(c) in t.facts && c in t.env.ctrls;
      assert ControlsLiveCtrl(t, f.account);
      assert f.account in CtrllessAccounts(s) && f.account !in CtrllessAccounts(t);
      SmallerSet(CtrllessAccounts(t), CtrllessAccounts(s));
    }
  }

  lemma ControlBelow(ctx: Ctx, s: State, f: Firing)
    requires ctx.Valid() && Ready(ctx, s, f) && (f.FireOwn? || f.FireExec?)
    ensures Below(DistanceOf(ctx, Fire(ctx, s, f)), DistanceOf(ctx, s))
  {
    hide Derive, StaleTokens, UnknownSecrets, UnusedSources, UnreadSecrets, UnusedServices, PodlessAccounts, CtrllessAccounts;
    var t := Fire(ctx, s, f);
    WorkloadsKept(ctx, s, f);
    assert f.pod in UncontrolledPods(s) && f.pod !in UncontrolledPods(t);
    SmallerSet(UncontrolledPods(t), UncontrolledPods(s));
  }

  lemma LearnBelow(ctx: Ctx, s: State, f: Firing)
    requires ctx.Valid() && Ready(ctx, s, f) && f.FireLearn?
    ensures Below(DistanceOf(ctx, Fire(ctx, s, f)), DistanceOf(ctx, s))
  {
    hide Derive, StaleTokens, UnusedSources, UnreadSecrets, UnusedServices, PodlessAccounts, CtrllessAccounts;
    var t := Fire(ctx, s, f);
    WorkloadsKept(ctx, s, f);
    assert UncontrolledPods(t) == UncontrolledPods(s);
    assert f.secret in UnknownSecrets(s) && f.secret !in UnknownSecrets(t);
    SmallerSet(UnknownSecrets(t), UnknownSecrets(s));
  }

  lemma TokenBelow(ctx: Ctx, s: State, f: Firing)
    requires ctx.Valid() && Ready(ctx, s, f) && f.FireToken?
    ensures Below(DistanceOf(ctx, Fire(ctx, s, f)), DistanceOf(ctx, s))
  {
    hide Derive, UnusedSources, UnreadSecrets, UnusedServices, PodlessAccounts, CtrllessAccounts;
    var t := Fire(ctx, s, f);
    WorkloadsKept(ctx, s, f);
    assert UncontrolledPods(t) == UncontrolledPods(s);
    assert UnknownSecrets(t) == UnknownSecrets(s);
    assert (f.pod, f.aud) in StaleTokens(ctx, s) && (f.pod, f.aud) !in StaleTokens(ctx, t);
    SmallerSet(StaleTokens(ctx, t), StaleTokens(ctx, s));
  }

  lemma DownstreamBelow(ctx: Ctx, s: State, f: Firing)
    requires ctx.Valid() && Ready(ctx, s, f) && f.FireDownstream?
    ensures Below(DistanceOf(ctx, Fire(ctx, s, f)), DistanceOf(ctx, s))
  {
    hide Derive, UnreadSecrets, UnusedServices, PodlessAccounts, CtrllessAccounts;
    var t := Fire(ctx, s, f);
    WorkloadsKept(ctx, s, f);
    assert UncontrolledPods(t) == UncontrolledPods(s);
    assert UnknownSecrets(t) == UnknownSecrets(s);
    assert StaleTokens(ctx, t) == StaleTokens(ctx, s);
    assert (KnowsSecret(f.known), f.service) in UnusedSources(s) && (KnowsSecret(f.known), f.service) !in UnusedSources(t);
    SmallerSet(UnusedSources(t), UnusedSources(s));
  }

  lemma GoalBelow(ctx: Ctx, s: State, f: Firing)
    requires ctx.Valid() && Ready(ctx, s, f) && (f.FireRead? || f.FireUse?)
    ensures Below(DistanceOf(ctx, Fire(ctx, s, f)), DistanceOf(ctx, s))
  {
    hide Derive, UncontrolledPods, UnknownSecrets, StaleTokens, UnusedSources, PodlessAccounts, CtrllessAccounts;
    var t := Fire(ctx, s, f);
    assert t == s.(eph := t.eph) && t.eph == s.eph[Concludes(ctx, s, f) := Derive(ctx, s, f)];
    SameButGoals(ctx, s, t);
    if f.FireRead? {
      assert f.secret in UnreadSecrets(s) && f.secret !in UnreadSecrets(t);
    } else {
      assert f.service in UnusedServices(s) && f.service !in UnusedServices(t);
    }
    SmallerSet(UnreadSecrets(t), UnreadSecrets(s));
    SmallerSet(UnusedServices(t), UnusedServices(s));
  }

  lemma SameButGoals(ctx: Ctx, s: State, t: State)
    requires ctx.Valid() && t == s.(eph := t.eph)
    ensures PodlessAccounts(t) == PodlessAccounts(s) && CtrllessAccounts(t) == CtrllessAccounts(s)
    ensures UncontrolledPods(t) == UncontrolledPods(s) && UnknownSecrets(t) == UnknownSecrets(s)
    ensures StaleTokens(ctx, t) == StaleTokens(ctx, s) && UnusedSources(t) == UnusedSources(s)
  {
    assert forall a :: ControlsLivePod(t, a) <==> ControlsLivePod(s, a);
    assert forall a :: ControlsLiveCtrl(t, a) <==> ControlsLiveCtrl(s, a);
  }

  /** Every firing of every rule makes progress. */
  lemma FiringBelow(ctx: Ctx, s: State, f: Firing)
    requires ctx.Valid() && Ready(ctx, s, f)
    ensures Below(DistanceOf(ctx, Fire(ctx, s, f)), DistanceOf(ctx, s))
  {
    hide DistanceOf, Fire, Below;
    match f {
      case FireOwn(_, _) => ControlBelow(ctx, s, f);
      case FireExec(_, _) => ControlBelow(ctx, s, f);
      case FireLearn(_, _) => LearnBelow(ctx, s, f);
      case FireToken(_, _) => TokenBelow(ctx, s, f);
      case FireDownstream(_, _) => DownstreamBelow(ctx, s, f);
      case FireRead(_, _) => GoalBelow(ctx, s, f);
      case FireUse(_, _) => GoalBelow(ctx, s, f);
      case _ => CreationBelow(ctx, s, f);
    }
  }

  /** So does every non-empty sequence of firings. */
  lemma {:induction false} FiringsBelow(ctx: Ctx, s: State, fs: seq<Firing>, gs: seq<Firing>)
    requires ctx.Valid() && FireAll(ctx, s, fs).Some? && FireAll(ctx, s, fs + gs).Some?
    ensures gs != [] ==> Below(DistanceOf(ctx, FireAll(ctx, s, fs + gs).value), DistanceOf(ctx, FireAll(ctx, s, fs).value))
    decreases |gs|
  {
    hide DistanceOf, Fire, Ready;
    if gs != [] {
      var init, f := gs[..|gs| - 1], gs[|gs| - 1];
      assert fs + gs == (fs + init) + [f];
      FireExtend(ctx, s, fs + init, f);
      FiringBelow(ctx, FireAll(ctx, s, fs + init).value, f);
      FiringsBelow(ctx, s, fs, init);
      if init == [] { assert fs + init == fs; }
    }
  }

  // ---------------------------------------------------------------- every input has a run

  lemma BelowCases(x: Distance, y: Distance)
    requires Below(x, y)
    ensures x.workloads <= y.workloads
    ensures x.workloads == y.workloads ==> x.pods <= y.pods
    ensures x.workloads == y.workloads && x.pods == y.pods ==> x.secrets <= y.secrets
    ensures x.workloads == y.workloads && x.pods == y.pods && x.secrets == y.secrets ==> x.tokens <= y.tokens
    ensures x.workloads == y.workloads && x.pods == y.pods && x.secrets == y.secrets && x.tokens == y.tokens ==> x.sources <= y.sources
    ensures x.workloads == y.workloads && x.pods == y.pods && x.secrets == y.secrets && x.tokens == y.tokens && x.sources == y.sources ==>
      x.goals < y.goals
  {
  }

  lemma FixpointFrom(ctx: Ctx, s: State, fs: seq<Firing>) returns (gs: seq<Firing>)
    requires ctx.Valid() && FireAll(ctx, s, fs).Some?
    ensures FireAll(ctx, s, gs).Some? && Closed(ctx, FireAll(ctx, s, gs).value)
    decreases DistanceOf(ctx, FireAll(ctx, s, fs).value).workloads, DistanceOf(ctx, FireAll(ctx, s, fs).value).pods,
      DistanceOf(ctx, FireAll(ctx, s, fs).value).secrets, DistanceOf(ctx, FireAll(ctx, s, fs).value).tokens,
      DistanceOf(ctx, FireAll(ctx, s, fs).value).sources, DistanceOf(ctx, FireAll(ctx, s, fs).value).goals
  {
    hide DistanceOf, Fire, Ready, FireAll, Below;
    var t := FireAll(ctx, s, fs).value;
    if Closed(ctx, t) {
      gs := fs;
    } else {
      var f :| Ready(ctx, t, f);
      FireExtend(ctx, s, fs, f);
      FiringBelow(ctx, t, f);
      BelowCases(DistanceOf(ctx, Fire(ctx, t, f)), DistanceOf(ctx, t));
      gs := FixpointFrom(ctx, s, fs + [f]);
    }
  }

  /** Whatever it starts from, a saturation comes to an end. */
  lemma SaturationExists(ctx: Ctx, s: State) returns (t: State)
    requires ctx.Valid()
    ensures Saturates(ctx, s, t)
  {
    hide Closed, Ready, Fire;
    assert FireAll(ctx, s, []) == Some(s);
    var gs := FixpointFrom(ctx, s, []);
    t := FireAll(ctx, s, gs).value;
  }

  lemma {:induction false} LadderExists(inp: Input, rule: UseRule, start: State, k: nat) returns (stages: seq<State>)
    requires inp.st.Valid() && k <= |inp.actions|
    ensures |stages| == k + 1 && Saturates(Ctx(inp.st, rule, 0), start, stages[0])
    ensures forall i :: 0 <= i < k ==> Saturates(Ctx(inp.st, rule, i + 1), NextState(stages[i], inp.actions[i]), stages[i + 1])
    decreases k
  {
    hide Saturates, NextState;
    if k == 0 {
      var t := SaturationExists(Ctx(inp.st, rule, 0), start);
      stages := [t];
    } else {
      var before := LadderExists(inp, rule, start, k - 1);
      var t := SaturationExists(Ctx(inp.st, rule, k), NextState(before[k - 1], inp.actions[k - 1]));
      stages := before + [t];
      forall i | 0 <= i < k
        ensures Saturates(Ctx(inp.st, rule, i + 1), NextState(stages[i], inp.actions[i]), stages[i + 1])
      {
        if i < k - 1 { assert stages[i] == before[i] && stages[i + 1] == before[i + 1]; }
      }
    }
  }

  /** With a cap large enough every input has a complete run, in every view. */
  lemma RunExists(inp: Input, view: Perspective, mode: Mode) returns (stages: seq<State>)
    requires Parsed(inp)
    ensures EngineRun(inp, view, mode, stages)
  {
    hide Saturates, HistoryStart, InitialState, HistoryRuns, Reconcile;
    var start;
    if HistoryRuns(inp, view, mode) {
      var h := SaturationExists(Ctx(inp.st, HistoryRule(inp, mode), -1), HistoryStart(inp, view, mode));
      start := MainStart(inp, h);
    } else {
      start := MainStart(inp, InitialState(inp, view, mode));
    }
    stages := LadderExists(inp, MainRule(mode), start, |inp.actions|);
    assert StartsMain(inp, view, mode, start) && Ladder(inp, MainRule(mode), start, stages);
  }
}
