/** The engine never invents capability: its firings, in the order made, are one legal run of
    single attacker steps, and its goals hold at the end of that run. */
module Legality {
  import opened Model
  import opened Semantics
  import opened Attack
  import opened Rules
  import opened Fixpoint

  /** `w` is a world some run reached in which the attacker really holds what `s` records. */
  ghost predicate Backs(w: World, s: State) {
    && w.env == s.env
    && (forall id :: id in s.creds ==> s.creds[id] in w.att.creds)
    && (forall u :: ControlsPod(u) in s.facts ==> u in w.att.pods)
    && (forall c :: ControlsController(c) in s.facts ==> c in w.att.ctrls)
    && (forall k :: KnowsSecret(k) in s.facts ==> k in w.att.know)
    && (forall name, v :: PossessesDownstream(name, v) in s.facts ==> HoldsDownstream(w, name, v))
  }

  /** The attacker knows version `v` of the Secret the service sources. */
  ghost predicate HoldsDownstream(w: World, name: string, v: int) {
    name in w.env.services && Known(w.env.services[name].source, v) in w.att.know
  }

  ghost predicate GoalsBacked(st: Static, rule: UseRule, w: World, s: State) {
    && (forall k :: CanReadSecret(k) in s.eph ==> Violated(st, rule, w, NoSecretRead(k)))
    && (forall name :: CanUseDownstream(name) in s.eph ==> Violated(st, rule, w, NoDownstreamUse(name)))
  }

  // ---------------------------------------------------------------- capability only grows

  ghost predicate Richer(w: World, v: World) {
    && w.att.creds <= v.att.creds && w.att.pods <= v.att.pods && w.att.ctrls <= v.att.ctrls && w.att.know <= v.att.know
    && v.env.time == w.env.time && v.env.sas == w.env.sas && v.env.bindings == w.env.bindings
    && v.env.secrets == w.env.secrets && v.env.services == w.env.services
    && (forall u :: u in w.env.pods ==> u in v.env.pods && v.env.pods[u] == w.env.pods[u])
  }

  lemma StepEnriches(st: Static, rule: UseRule, w: World, act: Act)
    requires st.api != [] && Enabled(st, rule, w, act)
    ensures Richer(w, Do(st, w, act))
  {
    if act.NewCtrl? { ReconcileKeepsPods(Unreconciled(w.env, act.account, act.uid, act.fromZero)); }
  }

  lemma UseKept(st: Static, rule: UseRule, w: World, v: World, c: Cred)
    requires Richer(w, v) && CanUse(st, w.env, c, rule)
    ensures CanUse(st, v.env, c, rule)
  {
    if rule.Window? {
      var t :| (rule.start.None? || rule.start.value <= t) && t <= w.env.time && CredentialUsable(st, w.env, c, t).Usable?;
      assert CredentialUsable(st, v.env, c, t).Usable?;
    }
  }

  lemma ViolationKept(st: Static, rule: UseRule, w: World, v: World, o: Objective)
    requires Richer(w, v) && Violated(st, rule, w, o)
    ensures Violated(st, rule, v, o)
  {
    match o {
      case NoSecretRead(k) =>
        var c :| c in w.att.creds && CanUse(st, w.env, c, rule) && CanRead(st, w.env.bindings, c.user, k);
        UseKept(st, rule, w, v, c);
      case NoDownstreamUse(name) =>
    }
  }

  lemma GoalsKept(st: Static, rule: UseRule, w: World, v: World, s: State)
    requires Richer(w, v) && GoalsBacked(st, rule, w, s)
    ensures GoalsBacked(st, rule, v, s)
  {
    forall k | CanReadSecret(k) in s.eph
      ensures Violated(st, rule, v, NoSecretRead(k))
    {
      ViolationKept(st, rule, w, v, NoSecretRead(k));
    }
    forall name | CanUseDownstream(name) in s.eph
      ensures Violated(st, rule, v, NoDownstreamUse(name))
    {
      ViolationKept(st, rule, w, v, NoDownstreamUse(name));
    }
  }

  // ---------------------------------------------------------------- one firing, at most one step

  /** The attacker step a firing stands for; the downstream rules and the read goal only
      restate what is already held. */
  function ActOf(ctx: Ctx, s: State, f: Firing): Option<Act>
    requires ctx.st.api != [] && Ready(ctx, s, f)
  {
    match f
    case FireOwn(_, u) => Some(Own(u))
    case FireToken(u, aud) => Some(Obtain(u, aud))
    case FireExec(id, u) => Some(Exec(s.creds[id], u))
    case FireLearn(id, k) => Some(Read(s.creds[id], k))
    case FirePod(id, a) => Some(NewPod(s.creds[id], a, ModelPod(a, ctx.interval)))
    case FireCtrl(id, a) => Some(NewCtrl(s.creds[id], a, ModelDeploy(a, ctx.interval), true))
    case _ => None
  }

  lemma FiringEnabled(ctx: Ctx, w: World, s: State, f: Firing)
    requires ctx.Valid() && Ready(ctx, s, f) && Backs(w, s) && RuleFits(ctx, s.env)
    ensures ActOf(ctx, s, f).Some? ==> Enabled(ctx.st, ctx.rule, w, ActOf(ctx, s, f).value)
  {
    if f.FireExec? || f.FireLearn? || f.FirePod? || f.FireCtrl? { UseTimeIsExact(ctx, s.env, s.creds[f.cred]); }
  }

  function WorldAfter(ctx: Ctx, w: World, s: State, f: Firing): World
    requires ctx.Valid() && Ready(ctx, s, f)
    requires w.env == s.env
  {
    if ActOf(ctx, s, f).Some? then Do(ctx.st, w, ActOf(ctx, s, f).value) else w
  }

  lemma QuietBacked(ctx: Ctx, w: World, s: State, f: Firing)
    requires ctx.Valid() && Ready(ctx, s, f) && Backs(w, s) && !f.FirePod? && !f.FireCtrl?
    ensures Backs(WorldAfter(ctx, w, s, f), Fire(ctx, s, f))
  {
    hide Accepted, Authorized, AdmissionDecision, ReadConditions, CreateConditions, ObjectPremises, Audiences;
    match f {
      case FireDownstream(k, name) => assert Known(s.env.services[name].source, k.version) == k;
      case _ =>
    }
  }

  lemma PodBacked(ctx: Ctx, w: World, s: State, f: Firing)
    requires ctx.Valid() && Ready(ctx, s, f) && Backs(w, s) && f.FirePod?
    ensures Backs(WorldAfter(ctx, w, s, f), Fire(ctx, s, f))
  {
    CreationFacts(w, WorldAfter(ctx, w, s, f), s, Fire(ctx, s, f), ControlsPod(ModelPod(f.account, ctx.interval)));
  }

  lemma CtrlEnvServices(e: Env, a: Account, uid: Uid, z: bool)
    ensures WithCtrl(e, a, uid, z).services == e.services
  {
  }

  lemma CtrlBacked(ctx: Ctx, w: World, s: State, f: Firing)
    requires ctx.Valid() && Ready(ctx, s, f) && Backs(w, s) && f.FireCtrl?
    ensures Backs(WorldAfter(ctx, w, s, f), Fire(ctx, s, f))
  {
    var uid := ModelDeploy(f.account, ctx.interval);
    CtrlEnvServices(s.env, f.account, uid, true);
    var t := Fire(ctx, s, f);
    var v := World(WithCtrl(w.env, f.account, uid, true), w.att.(ctrls := w.att.ctrls + {uid}));
    assert WorldAfter(ctx, w, s, f) == v;
    assert t.facts.Keys == s.facts.Keys + {ControlsController(uid)};
    CreationFacts(w, v, s, t, ControlsController(uid));
  }

  lemma CreationFacts(w: World, v: World, s: State, t: State, fact: Fact)
    requires Backs(w, s) && v.env == t.env && t.creds == s.creds && t.facts.Keys == s.facts.Keys + {fact}
    requires v.att.creds == w.att.creds && v.att.know == w.att.know && v.env.services == w.env.services
    requires w.att.pods <= v.att.pods && w.att.ctrls <= v.att.ctrls
    requires (fact.ControlsPod? && fact.pod in v.att.pods) || (fact.ControlsController? && fact.ctrl in v.att.ctrls)
    ensures Backs(v, t)
  {
    forall name, ver | PossessesDownstream(name, ver) in t.facts
      ensures HoldsDownstream(v, name, ver)
    {
      assert PossessesDownstream(name, ver) in s.facts.Keys;
      assert HoldsDownstream(w, name, ver);
    }
    assert forall f :: f in t.facts ==> f in s.facts.Keys || f == fact;
  }

  lemma FiringBacked(ctx: Ctx, w: World, s: State, f: Firing)
    requires ctx.Valid() && Ready(ctx, s, f) && Backs(w, s)
    ensures Backs(WorldAfter(ctx, w, s, f), Fire(ctx, s, f))
  {
    match f {
      case FirePod(_, _) => PodBacked(ctx, w, s, f);
      case FireCtrl(_, _) => CtrlBacked(ctx, w, s, f);
      case _ => QuietBacked(ctx, w, s, f);
    }
  }

  lemma GoalFiringBacked(ctx: Ctx, w: World, s: State, f: Firing)
    requires ctx.Valid() && Ready(ctx, s, f) && Backs(w, s) && RuleFits(ctx, s.env) && GoalsBacked(ctx.st, ctx.rule, w, s)
    ensures GoalsBacked(ctx.st, ctx.rule, WorldAfter(ctx, w, s, f), Fire(ctx, s, f))
  {
    var v, t := WorldAfter(ctx, w, s, f), Fire(ctx, s, f);
    if ActOf(ctx, s, f).Some? {
      FiringEnabled(ctx, w, s, f);
      StepEnriches(ctx.st, ctx.rule, w, ActOf(ctx, s, f).value);
      GoalsKept(ctx.st, ctx.rule, w, v, s);
    }
    match f {
      case FireRead(id, k) =>
        UseTimeIsExact(ctx, s.env, s.creds[id]);
        assert Violated(ctx.st, ctx.rule, w, NoSecretRead(k));
      case FireUse(name, ver) =>
        assert HoldsDownstream(w, name, ver);
        assert Violated(ctx.st, ctx.rule, w, NoDownstreamUse(name));
      case _ => assert t.eph == s.eph;
    }
  }

  /** The engine's firings form one legal run, whose end backs every fact and goal recorded. */
  lemma {:induction false} FiringsAreARun(ctx: Ctx, w: World, s: State, fs: seq<Firing>) returns (acts: seq<Act>)
    requires ctx.Valid() && FireAll(ctx, s, fs).Some? && Backs(w, s) && RuleFits(ctx, s.env)
    requires GoalsBacked(ctx.st, ctx.rule, w, s)
    ensures RunActs(ctx.st, ctx.rule, w, acts).Some?
    ensures var t, v := FireAll(ctx, s, fs).value, RunActs(ctx.st, ctx.rule, w, acts).value;
      Backs(v, t) && GoalsBacked(ctx.st, ctx.rule, v, t) && RuleFits(ctx, t.env) && t.env.time == s.env.time
  {
    acts := [];
    if fs != [] {
      var m := FireAll(ctx, s, fs[..|fs| - 1]).value;
      var f := fs[|fs| - 1];
      acts := FiringsAreARun(ctx, w, s, fs[..|fs| - 1]);
      var x := RunActs(ctx.st, ctx.rule, w, acts).value;
      FiringEnabled(ctx, x, m, f);
      FiringBacked(ctx, x, m, f);
      GoalFiringBacked(ctx, x, m, f);
      if ActOf(ctx, m, f).Some? {
        var act := ActOf(ctx, m, f).value;
        assert (acts + [act])[..|acts + [act]| - 1] == acts;
        acts := acts + [act];
      }
    }
  }
}
