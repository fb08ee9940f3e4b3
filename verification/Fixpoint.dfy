/** The engine's state as an attacker world: every firing is a legal attacker step, nothing the
    engine overwrites is lost, and a fixpoint of the rules is saturated. */
module Fixpoint {
  import opened Model
  import opened Semantics
  import opened Attack
  import opened Shape
  import opened Cover
  import opened Rules

  function View(s: State): World {
    World(s.env, Att(
      set id | id in s.creds :: s.creds[id],
      set f | f in s.facts && f.ControlsPod? :: f.pod,
      set f | f in s.facts && f.ControlsController? :: f.ctrl,
      set f | f in s.facts && f.KnowsSecret? :: f.known))
  }

  ghost predicate CredsKnown(s: State) {
    forall id :: (id in s.creds <==> Possesses(id) in s.facts) && (id in s.creds ==> s.creds[id].id == id)
  }

  /** Model objects carry the interval that created them, and those of this interval are alive. */
  ghost predicate ModelsKnown(interval: int, s: State) {
    && (forall a, i :: ModelPod(a, i) in s.env.pods ==> ControlsPod(ModelPod(a, i)) in s.facts)
    && (forall a, i :: ControlsPod(ModelPod(a, i)) in s.facts ==> i <= interval && (i == interval ==> ModelPod(a, i) in s.env.pods))
    && (forall a, i :: ModelDeploy(a, i) in s.env.ctrls ==> ControlsController(ModelDeploy(a, i)) in s.facts)
    && (forall a, i :: ControlsController(ModelDeploy(a, i)) in s.facts ==> i <= interval && (i == interval ==> ModelDeploy(a, i) in s.env.ctrls))
  }

  /** Only the engine's own naming scheme is in use. */
  ghost predicate OnlyModels(e: Env) {
    && (forall u :: u in e.pods && Standalone(u) ==> u.ModelPod?)
    && (forall c :: c in e.ctrls && CreatedDeploy(c) ==> c.ModelDeploy?)
  }

  ghost predicate Good(interval: int, s: State) {
    && Shaped(s.env) && CredsKnown(s) && ModelsKnown(interval, s) && OnlyModels(s.env)
    && (forall f :: f in s.facts ==> Persistent(f))
    && (forall f :: f in s.eph ==> !Persistent(f))
  }

  // ---------------------------------------------------------------- firing keeps the invariant

  lemma WithCtrlPods(e: Env, a: Account, uid: Uid, z: bool)
    requires Loose(e) && CreatedDeploy(uid) && uid.account == a
    ensures WithCtrl(e, a, uid, z).pods.Keys >= e.pods.Keys
    ensures forall u :: u in e.pods ==> WithCtrl(e, a, uid, z).pods[u] == e.pods[u]
    ensures forall u :: u in WithCtrl(e, a, uid, z).pods && Standalone(u) ==> u in e.pods
  {
    hide Reconcile, Text;
    var m := Unreconciled(e, a, uid, z);
    ReconcileKeepsPods(m);
    ReconcileOnlyPods(m);
  }

  /** A fact is added to one of the tables; environment and credentials stay. */
  lemma FactAdded(k: int, s: State, t: State, fact: Fact)
    requires Good(k, s) && t.env == s.env && t.creds == s.creds && !fact.Possesses? && !fact.ControlsController?
    requires fact.ControlsPod? && fact.pod.ModelPod? ==> fact in s.facts
    requires if Persistent(fact) then t.facts.Keys == s.facts.Keys + {fact} && t.eph == s.eph
             else t.facts == s.facts && t.eph.Keys == s.eph.Keys + {fact}
    ensures Good(k, t)
  {
    hide Shaped, OnlyModels;
    assert forall f :: f in t.facts <==> f in t.facts.Keys;
    assert forall f :: f in t.eph <==> f in t.eph.Keys;
    assert forall id :: Possesses(id) in t.facts <==> Possesses(id) in s.facts;
  }

  lemma TokenStored(ctx: Ctx, s: State, u: Uid, aud: string)
    requires ctx.Valid() && Good(ctx.interval, s) && Ready(ctx, s, FireToken(u, aud))
    ensures Good(ctx.interval, Fire(ctx, s, FireToken(u, aud)))
  {
    hide Shaped, OnlyModels;
    var t := Fire(ctx, s, FireToken(u, aud));
    assert CredsKnown(t);
  }

  /** A firing that leaves the environment alone. */
  lemma QuietFiring(ctx: Ctx, s: State, f: Firing)
    requires ctx.Valid() && Good(ctx.interval, s) && Ready(ctx, s, f) && !f.FirePod? && !f.FireCtrl?
    ensures Good(ctx.interval, Fire(ctx, s, f)) && Fire(ctx, s, f).env == s.env
  {
    hide Authorized, AdmissionDecision, Accepted, CanRead, ReadConditions, CreateConditions, CredsKnown, Shaped;
    if f.FireToken? {
      TokenStored(ctx, s, f.pod, f.aud);
    } else {
      FactAdded(ctx.interval, s, Fire(ctx, s, f), Concludes(ctx, s, f));
    }
  }

  lemma PodFiring(ctx: Ctx, base: Env, s: State, f: Firing)
    requires ctx.Valid() && Good(ctx.interval, s) && Ready(ctx, s, f) && f.FirePod?
    requires EnvInv(base, s.env)
    ensures Good(ctx.interval, Fire(ctx, s, f))
    ensures EnvInv(base, Fire(ctx, s, f).env)
  {
    hide CredsKnown, ModelsKnown, Text, Authorized, AdmissionDecision, Accepted;
    NewPodKeepsInv(base, s.env, f.account, ModelPod(f.account, ctx.interval));
    PodModels(ctx, s, f);
    SameCreds(ctx, s, f);
  }

  lemma PodModels(ctx: Ctx, s: State, f: Firing)
    requires ctx.Valid() && Ready(ctx, s, f) && f.FirePod? && ModelsKnown(ctx.interval, s) && OnlyModels(s.env)
    ensures ModelsKnown(ctx.interval, Fire(ctx, s, f)) && OnlyModels(Fire(ctx, s, f).env)
  {
  }

  lemma SameCreds(ctx: Ctx, s: State, f: Firing)
    requires ctx.Valid() && Ready(ctx, s, f) && (f.FirePod? || f.FireCtrl?) && CredsKnown(s)
    ensures CredsKnown(Fire(ctx, s, f))
  {
  }

  lemma CtrlFiring(ctx: Ctx, base: Env, s: State, f: Firing)
    requires ctx.Valid() && Good(ctx.interval, s) && Ready(ctx, s, f) && f.FireCtrl?
    requires EnvInv(base, s.env)
    ensures Good(ctx.interval, Fire(ctx, s, f))
    ensures EnvInv(base, Fire(ctx, s, f).env)
  {
    hide Reconcile, CredsKnown, ModelsKnown, Text, Authorized, AdmissionDecision, Accepted;
    var uid := ModelDeploy(f.account, ctx.interval);
    NewCtrlKeepsInv(base, s.env, f.account, uid, true);
    WithCtrlPods(s.env, f.account, uid, true);
    CtrlModels(ctx, s, f);
    SameCreds(ctx, s, f);
  }

  lemma CtrlModels(ctx: Ctx, s: State, f: Firing)
    requires ctx.Valid() && Ready(ctx, s, f) && f.FireCtrl? && ModelsKnown(ctx.interval, s) && OnlyModels(s.env)
    requires forall u :: u in EnvAfter(ctx, s, f).pods && Standalone(u) ==> u in s.env.pods
    requires EnvAfter(ctx, s, f).pods.Keys >= s.env.pods.Keys
    ensures ModelsKnown(ctx.interval, Fire(ctx, s, f)) && OnlyModels(Fire(ctx, s, f).env)
  {
  }

  lemma FiringKeepsGood(ctx: Ctx, base: Env, s: State, f: Firing)
    requires ctx.Valid() && Good(ctx.interval, s) && EnvInv(base, s.env) && Ready(ctx, s, f)
    ensures Good(ctx.interval, Fire(ctx, s, f)) && EnvInv(base, Fire(ctx, s, f).env)
  {
    hide Good, EnvInv, Fire, Ready;
    match f {
      case FirePod(_, _) => PodFiring(ctx, base, s, f);
      case FireCtrl(_, _) => CtrlFiring(ctx, base, s, f);
      case _ => QuietFiring(ctx, s, f);
    }
  }

  // ---------------------------------------------------------------- the tables only grow

  lemma FactsGrow(ctx: Ctx, s: State, f: Firing)
    requires ctx.Valid() && Ready(ctx, s, f)
    ensures s.facts.Keys <= Fire(ctx, s, f).facts.Keys && s.creds.Keys <= Fire(ctx, s, f).creds.Keys
    ensures s.env.pods.Keys <= Fire(ctx, s, f).env.pods.Keys && s.env.ctrls.Keys <= Fire(ctx, s, f).env.ctrls.Keys
  {
    if f.FireCtrl? { ReconcileKeepsPods(Unreconciled(s.env, f.account, ModelDeploy(f.account, ctx.interval), true)); }
  }

  /** State growth, read off the tables. */
  ghost predicate Extends(s: State, t: State) {
    && s.facts.Keys <= t.facts.Keys
    && s.env.pods.Keys <= t.env.pods.Keys && s.env.ctrls.Keys <= t.env.ctrls.Keys
    && s.creds.Keys <= t.creds.Keys
  }

  lemma ExtendsTransitive(s: State, t: State, r: State)
    requires Extends(s, t) && Extends(t, r)
    ensures Extends(s, r)
  {
  }

  /** Over any sequence of firings the invariant holds and nothing is lost. */
  lemma {:induction false} FiringsGrow(ctx: Ctx, base: Env, s: State, fs: seq<Firing>)
    requires ctx.Valid() && Good(ctx.interval, s) && EnvInv(base, s.env)
    requires FireAll(ctx, s, fs).Some?
    ensures var t := FireAll(ctx, s, fs).value; Good(ctx.interval, t) && EnvInv(base, t.env) && Extends(s, t)
  {
    if fs != [] {
      var m := FireAll(ctx, s, fs[..|fs| - 1]).value;
      var f := fs[|fs| - 1];
      FiringsGrow(ctx, base, s, fs[..|fs| - 1]);
      FiringKeepsGood(ctx, base, m, f);
      FactsGrow(ctx, m, f);
      ExtendsTransitive(s, m, Fire(ctx, m, f));
    }
  }

  // ---------------------------------------------------------------- a fixpoint is saturated

  lemma ClosedOwns(ctx: Ctx, s: State)
    requires ctx.Valid() && Closed(ctx, s)
    ensures OwnedHeld(View(s))
  {
    var w := View(s);
    forall u | u in w.env.pods && w.env.pods[u].owner.Some? && w.env.pods[u].owner.value in w.att.ctrls
      ensures u in w.att.pods
    {
      assert !Ready(ctx, s, FireOwn(w.env.pods[u].owner.value, u));
      assert ControlsPod(u) in s.facts;
    }
  }

  lemma ClosedPods(ctx: Ctx, s: State, id: CredId, a: Account)
    requires ctx.Valid() && Closed(ctx, s) && Good(ctx.interval, s)
    requires Acts(ctx, s, id) && MayCreate(ctx.st, s.env, s.creds[id].user, a, "pods")
    ensures PodRep(View(s), a)
  {
    hide Authorized, AdmissionDecision, Accepted, CredsKnown;
    assert !Ready(ctx, s, FirePod(id, a));
    var u := ModelPod(a, ctx.interval);
    if ControlsLivePod(s, a) {
      var f :| f in s.facts && f.ControlsPod? && f.pod.ModelPod? && f.pod in s.env.pods && s.env.pods[f.pod].Acct() == a;
      assert ShapedPod(s.env, f.pod);
      u := f.pod;
    }
    assert u in s.env.pods && ControlsPod(u) in s.facts;
    assert u in View(s).att.pods;
  }

  lemma ClosedCtrls(ctx: Ctx, s: State, id: CredId, a: Account)
    requires ctx.Valid() && Closed(ctx, s) && Good(ctx.interval, s)
    requires Acts(ctx, s, id) && MayCreate(ctx.st, s.env, s.creds[id].user, a, "deployments")
    ensures CtrlRep(View(s), a)
  {
    hide Authorized, AdmissionDecision, Accepted, CredsKnown;
    assert !Ready(ctx, s, FireCtrl(id, a));
    var c := ModelDeploy(a, ctx.interval);
    if ControlsLiveCtrl(s, a) {
      var f :| f in s.facts && f.ControlsController? && f.ctrl.ModelDeploy? && f.ctrl in s.env.ctrls && s.env.ctrls[f.ctrl].Acct() == a;
      c := f.ctrl;
    }
    assert c in s.env.ctrls && ControlsController(c) in s.facts;
    assert c in View(s).att.ctrls;
  }

  ghost predicate RuleFits(ctx: Ctx, e: Env) {
    ctx.rule.Window? && ctx.rule.start.Some? ==> ctx.rule.start.value <= e.time
  }

  lemma ClosedUser(ctx: Ctx, s: State, id: CredId)
    requires ctx.Valid() && Closed(ctx, s) && Good(ctx.interval, s) && Acts(ctx, s, id)
    ensures UserExhausted(ctx.st, View(s), s.creds[id].user)
  {
    hide Authorized, AdmissionDecision, Accepted, Good;
    var w, user := View(s), s.creds[id].user;
    forall k | k in w.env.secrets && CanRead(ctx.st, w.env.bindings, user, k)
      ensures Known(k, w.env.secrets[k]) in w.att.know
    {
      assert !Ready(ctx, s, FireLearn(id, k));
      assert KnowsSecret(Known(k, s.env.secrets[k])) in s.facts;
    }
    forall u | MayExec(ctx.st, w.env, user, u)
      ensures u in w.att.pods
    {
      assert !Ready(ctx, s, FireExec(id, u));
      assert ControlsPod(u) in s.facts;
    }
    forall a | MayCreate(ctx.st, w.env, user, a, "pods")
      ensures PodRep(w, a)
    {
      ClosedPods(ctx, s, id, a);
    }
    forall a | MayCreate(ctx.st, w.env, user, a, "deployments")
      ensures CtrlRep(w, a)
    {
      ClosedCtrls(ctx, s, id, a);
    }
  }

  // ---------------------------------------------------------------- goals

  function Goal(o: Objective): Fact {
    match o
    case NoSecretRead(k) => CanReadSecret(k)
    case NoDownstreamUse(name) => CanUseDownstream(name)
  }

  lemma ClosedReads(ctx: Ctx, s: State, id: CredId, k: SecretKey)
    requires ctx.Valid() && Closed(ctx, s) && Acts(ctx, s, id)
    requires k in s.env.secrets && CanRead(ctx.st, s.env.bindings, s.creds[id].user, k)
    ensures CanReadSecret(k) in s.eph
  {
    assert !Ready(ctx, s, FireRead(id, k));
  }

  lemma ClosedUses(ctx: Ctx, s: State, k: Known, name: string)
    requires ctx.Valid() && Closed(ctx, s) && KnowsSecret(k) in s.facts
    requires name in s.env.services && s.env.services[name].source == k.secret && s.env.services[name].Accepts(k.version, s.env.time)
    ensures CanUseDownstream(name) in s.eph
  {
    assert !Ready(ctx, s, FireDownstream(k, name));
    assert !Ready(ctx, s, FireUse(name, k.version));
  }
}
