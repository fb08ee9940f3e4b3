/** The engine's inference rules, one firing at a time (packages/afterlock/engine.py).
    Each firing records one fact with its derivation and costs one tick of the cap. */
module Rules {
  import opened Model
  import opened Semantics
  import opened Attack

  datatype Fact =
    | Possesses(cred: CredId)
    | ControlsPod(pod: Uid)
    | ControlsController(ctrl: Uid)
    | KnowsSecret(known: Known)
    | PossessesDownstream(service: string, version: int)
    | CanReadSecret(secret: SecretKey)
    | CanUseDownstream(target: string)

  datatype RuleName =
    | Evidence | ControllerPod | ObtainToken | ExecPod | ReadSecret
    | DownstreamCredential | UseDownstream | CreatePod | CreateController

  datatype Condition =
    | PodOwned(pod: Uid, ctrl: Uid)
    | PodExists(pod: Uid)
    | AccountExists(account: Account, uid: Option<string>)
    | CredentialChecked(cred: CredId, time: int)
    | AuthorizedBy(user: User, verb: string, resource: string, ns: string, name: Option<string>, via: set<ObjKey>)
    | AdmissionAllows(user: User, account: Account)
    | SecretAt(secret: SecretKey, version: int)
    | ServiceSources(service: string, secret: SecretKey)
    | ServiceAccepts(service: string, version: int)

  datatype Derivation = Derivation(rule: RuleName, interval: int, premises: seq<Fact>, conditions: seq<Condition>)

  /** The engine's mutable state: `eph` holds the facts true of the current interval only. */
  datatype State = State(env: Env, creds: map<CredId, Cred>, facts: map<Fact, Derivation>, eph: map<Fact, Derivation>)

  /** What one closure is run with. */
  datatype Ctx = Ctx(st: Static, rule: UseRule, interval: int)
  {
    ghost predicate Valid() { st.Valid() }
  }

  datatype Firing =
    | FireOwn(ctrl: Uid, pod: Uid)
    | FireToken(pod: Uid, aud: string)
    | FireExec(cred: CredId, pod: Uid)
    | FireLearn(cred: CredId, secret: SecretKey)
    | FireRead(cred: CredId, secret: SecretKey)
    | FirePod(cred: CredId, account: Account)
    | FireCtrl(cred: CredId, account: Account)
    | FireDownstream(known: Known, service: string)
    | FireUse(service: string, version: int)

  // ---------------------------------------------------------------- credential use

  /** The instant at which a use of `c` is evaluated: in the history phase, the last instant
      before expiry when the credential has already expired. */
  function UseTime(rule: UseRule, e: Env, c: Cred): int {
    if !rule.Window? || c.expires.None? || c.expires.value > e.time then e.time
    else
      var last := c.expires.value - 1;
      if rule.start.Some? && last < rule.start.value then rule.start.value else last
  }

  predicate Accepted(ctx: Ctx, e: Env, c: Cred) {
    var v := CredentialUsable(ctx.st, e, c, UseTime(ctx.rule, e, c));
    if v.Unsupported? then false else if ctx.rule.Blind? then true else v.Usable?
  }

  /** The engine's one chosen instant decides exactly whether some instant of the window does. */
  lemma UseTimeIsExact(ctx: Ctx, e: Env, c: Cred)
    requires ctx.rule.Window? && ctx.rule.start.Some? ==> ctx.rule.start.value <= e.time
    ensures Accepted(ctx, e, c) <==> CanUse(ctx.st, e, c, ctx.rule)
  {
    if ctx.rule.Window? {
      var at := UseTime(ctx.rule, e, c);
      assert (ctx.rule.start.None? || ctx.rule.start.value <= at) && at <= e.time;
      if CanUse(ctx.st, e, c, ctx.rule) {
        var t :| (ctx.rule.start.None? || ctx.rule.start.value <= t) && t <= e.time && CredentialUsable(ctx.st, e, c, t).Usable?;
        assert CredentialUsable(ctx.st, e, c, at).Usable?;
      }
    }
  }

  // ---------------------------------------------------------------- when a rule fires

  /** A live workload the engine itself created for this account and controls. */
  predicate ControlsLivePod(s: State, a: Account) {
    exists f :: f in s.facts && f.ControlsPod? && f.pod.ModelPod? && f.pod in s.env.pods && s.env.pods[f.pod].Acct() == a
  }

  predicate ControlsLiveCtrl(s: State, a: Account) {
    exists f :: f in s.facts && f.ControlsController? && f.ctrl.ModelDeploy? && f.ctrl in s.env.ctrls && s.env.ctrls[f.ctrl].Acct() == a
  }

  predicate Acts(ctx: Ctx, s: State, id: CredId) {
    Possesses(id) in s.facts && id in s.creds && Accepted(ctx, s.env, s.creds[id])
  }

  /** The stored token lasts at least as long as a fresh one would. */
  predicate TokenCurrent(ctx: Ctx, s: State, pod: Uid, aud: string) {
    var id := Projected(pod, aud);
    id in s.creds && s.creds[id].expires.Some? && s.creds[id].expires.value >= s.env.time + ctx.st.ttl
  }

  predicate Ready(ctx: Ctx, s: State, f: Firing)
    requires ctx.st.api != []
  {
    var e := s.env;
    match f
    case FireOwn(c, u) =>
      ControlsController(c) in s.facts && u in e.pods && e.pods[u].owner == Some(c) && ControlsPod(u) !in s.facts
    case FireToken(u, aud) =>
      && ControlsPod(u) in s.facts && u in e.pods && e.pods[u].Acct() in e.sas && aud in Audiences(ctx.st, e.pods[u])
      && !TokenCurrent(ctx, s, u, aud)
    case FireExec(id, u) =>
      Acts(ctx, s, id) && MayExec(ctx.st, e, s.creds[id].user, u) && ControlsPod(u) !in s.facts
    case FireLearn(id, k) =>
      && Acts(ctx, s, id) && k in e.secrets && CanRead(ctx.st, e.bindings, s.creds[id].user, k)
      && KnowsSecret(Known(k, e.secrets[k])) !in s.facts
    case FireRead(id, k) =>
      && Acts(ctx, s, id) && k in e.secrets && CanRead(ctx.st, e.bindings, s.creds[id].user, k)
      && CanReadSecret(k) !in s.eph
    case FirePod(id, a) =>
      && Acts(ctx, s, id) && MayCreate(ctx.st, e, s.creds[id].user, a, "pods") && !ControlsLivePod(s, a)
      && ModelPod(a, ctx.interval) !in e.pods && ControlsPod(ModelPod(a, ctx.interval)) !in s.facts
    case FireCtrl(id, a) =>
      && Acts(ctx, s, id) && MayCreate(ctx.st, e, s.creds[id].user, a, "deployments") && !ControlsLiveCtrl(s, a)
      && ModelDeploy(a, ctx.interval) !in e.ctrls && ControlsController(ModelDeploy(a, ctx.interval)) !in s.facts
    case FireDownstream(k, name) =>
      && KnowsSecret(k) in s.facts && name in e.services && e.services[name].source == k.secret
      && PossessesDownstream(name, k.version) !in s.facts
    case FireUse(name, v) =>
      && PossessesDownstream(name, v) in s.facts && name in e.services && e.services[name].Accepts(v, e.time)
      && CanUseDownstream(name) !in s.eph
  }

  // ---------------------------------------------------------------- what it records

  function ReadVerb(st: Static, e: Env, user: User, k: SecretKey): string {
    if Authorized(st, e.bindings, user, "get", "secrets", k.ns, Some(k.name)) then "get"
    else if Authorized(st, e.bindings, user, "list", "secrets", k.ns, Some(k.name)) then "list"
    else "watch"
  }

  function Authz(st: Static, e: Env, user: User, verb: string, resource: string, ns: string, name: Option<string>): Condition {
    AuthorizedBy(user, verb, resource, ns, name, AuthorizingBindings(st, e.bindings, user, verb, resource, ns, name))
  }

  /** The creation of the object an exec goes into, when the attacker created it. */
  function ObjectPremises(u: Uid, p: Pod): seq<Fact> {
    if p.owner.Some? && p.owner.value.ModelDeploy? then [ControlsController(p.owner.value)]
    else if u.ModelPod? then [ControlsPod(u)]
    else []
  }

  function UseChecked(ctx: Ctx, s: State, id: CredId): Condition
    requires id in s.creds
  {
    CredentialChecked(id, UseTime(ctx.rule, s.env, s.creds[id]))
  }

  /** The fact a firing establishes. */
  function Concludes(ctx: Ctx, s: State, f: Firing): Fact
    requires ctx.st.api != [] && Ready(ctx, s, f)
  {
    match f
    case FireOwn(_, u) => ControlsPod(u)
    case FireToken(u, aud) => Possesses(Projected(u, aud))
    case FireExec(_, u) => ControlsPod(u)
    case FireLearn(_, k) => KnowsSecret(Known(k, s.env.secrets[k]))
    case FireRead(_, k) => CanReadSecret(k)
    case FirePod(_, a) => ControlsPod(ModelPod(a, ctx.interval))
    case FireCtrl(_, a) => ControlsController(ModelDeploy(a, ctx.interval))
    case FireDownstream(k, name) => PossessesDownstream(name, k.version)
    case FireUse(name, _) => CanUseDownstream(name)
  }

  function ReadConditions(ctx: Ctx, s: State, id: CredId, k: SecretKey): seq<Condition>
    requires id in s.creds && k in s.env.secrets
  {
    var user := s.creds[id].user;
    [UseChecked(ctx, s, id),
     Authz(ctx.st, s.env, user, ReadVerb(ctx.st, s.env, user, k), "secrets", k.ns, Some(k.name)),
     SecretAt(k, s.env.secrets[k])]
  }

  function CreateConditions(ctx: Ctx, s: State, id: CredId, a: Account, resource: string): seq<Condition>
    requires id in s.creds
  {
    var user := s.creds[id].user;
    [UseChecked(ctx, s, id), Authz(ctx.st, s.env, user, "create", resource, a.ns, None),
     AdmissionAllows(user, a), AccountExists(a, None)]
  }

  /** The provenance a firing records. */
  function Derive(ctx: Ctx, s: State, f: Firing): Derivation
    requires ctx.st.api != [] && Ready(ctx, s, f)
  {
    var e, i := s.env, ctx.interval;
    match f
    case FireOwn(c, u) => Derivation(ControllerPod, i, [ControlsController(c)], [PodOwned(u, c)])
    case FireToken(u, aud) =>
      var a := e.pods[u].Acct();
      Derivation(ObtainToken, i, [ControlsPod(u)], [PodExists(u), AccountExists(a, Some(e.sas[a]))])
    case FireExec(id, u) =>
      var p := e.pods[u];
      Derivation(ExecPod, i, [Possesses(id)] + ObjectPremises(u, p),
        [UseChecked(ctx, s, id), Authz(ctx.st, e, s.creds[id].user, "create", "pods/exec", p.ns, Some(p.name))])
    case FireLearn(id, k) => Derivation(ReadSecret, i, [Possesses(id)], ReadConditions(ctx, s, id, k))
    case FireRead(id, k) => Derivation(ReadSecret, i, [Possesses(id)], ReadConditions(ctx, s, id, k))
    case FirePod(id, a) => Derivation(CreatePod, i, [Possesses(id)], CreateConditions(ctx, s, id, a, "pods"))
    case FireCtrl(id, a) => Derivation(CreateController, i, [Possesses(id)], CreateConditions(ctx, s, id, a, "deployments"))
    case FireDownstream(k, name) => Derivation(DownstreamCredential, i, [KnowsSecret(k)], [ServiceSources(name, k.secret)])
    case FireUse(name, v) => Derivation(UseDownstream, i, [PossessesDownstream(name, v)], [ServiceAccepts(name, v)])
  }

  /** The environment after a firing: only creations change it. */
  function EnvAfter(ctx: Ctx, s: State, f: Firing): Env {
    match f
    case FirePod(_, a) => WithPod(s.env, a, ModelPod(a, ctx.interval))
    case FireCtrl(_, a) => WithCtrl(s.env, a, ModelDeploy(a, ctx.interval), true)
    case _ => s.env
  }

  predicate Persistent(f: Fact) { !f.CanReadSecret? && !f.CanUseDownstream? }

  function Fire(ctx: Ctx, s: State, f: Firing): State
    requires ctx.st.api != [] && Ready(ctx, s, f)
  {
    var fact, d := Concludes(ctx, s, f), Derive(ctx, s, f);
    State(EnvAfter(ctx, s, f),
          if f.FireToken? then s.creds[Projected(f.pod, f.aud) := Token(ctx.st, s.env, f.pod, f.aud)] else s.creds,
          if Persistent(fact) then s.facts[fact := d] else s.facts,
          if Persistent(fact) then s.eph else s.eph[fact := d])
  }

  /** The state after a sequence of firings, or `None` when one of them was not ready. */
  ghost function FireAll(ctx: Ctx, s: State, fs: seq<Firing>): Option<State>
    requires ctx.st.api != []
  {
    if fs == [] then Some(s)
    else
      var before := FireAll(ctx, s, fs[..|fs| - 1]);
      if before.Some? && Ready(ctx, before.value, fs[|fs| - 1]) then Some(Fire(ctx, before.value, fs[|fs| - 1])) else None
  }

  lemma FireExtend(ctx: Ctx, s: State, fs: seq<Firing>, f: Firing)
    requires ctx.st.api != []
    ensures FireAll(ctx, s, fs + [f]) ==
      var before := FireAll(ctx, s, fs);
      if before.Some? && Ready(ctx, before.value, f) then Some(Fire(ctx, before.value, f)) else None
  {
    assert (fs + [f])[..|fs + [f]| - 1] == fs;
  }

  /** A fixpoint: no rule can add anything. */
  ghost predicate Closed(ctx: Ctx, s: State)
    requires ctx.st.api != []
  {
    forall f :: !Ready(ctx, s, f)
  }

  // ---------------------------------------------------------------- what a firing does to the environment

  /** Within an interval objects are only added. */
  ghost predicate EnvGrew(e: Env, f: Env) {
    && f.time == e.time && f.sas == e.sas && f.bindings == e.bindings && f.secrets == e.secrets && f.services == e.services
    && forall u :: u in e.pods ==> u in f.pods && f.pods[u] == e.pods[u]
  }

  lemma EnvGrewSelf(e: Env)
    ensures EnvGrew(e, e)
  {
  }

  lemma EnvGrewTransitive(a: Env, b: Env, c: Env)
    requires EnvGrew(a, b) && EnvGrew(b, c)
    ensures EnvGrew(a, c)
  {
  }

  lemma QuietFire(ctx: Ctx, s: State, f: Firing)
    requires ctx.Valid() && Ready(ctx, s, f) && !f.FireToken? && !f.FirePod? && !f.FireCtrl?
    ensures var fact, d := Concludes(ctx, s, f), Derive(ctx, s, f);
      Fire(ctx, s, f) == State(s.env, s.creds, if Persistent(fact) then s.facts[fact := d] else s.facts,
                               if Persistent(fact) then s.eph else s.eph[fact := d])
  {
  }

  lemma PodFire(ctx: Ctx, s: State, f: Firing)
    requires ctx.Valid() && Ready(ctx, s, f) && f.FirePod?
    ensures var u := ModelPod(f.account, ctx.interval);
      && Fire(ctx, s, f) == State(WithPod(s.env, f.account, u), s.creds, s.facts[ControlsPod(u) := Derive(ctx, s, f)], s.eph)
      && EnvGrew(s.env, WithPod(s.env, f.account, u))
  {
  }

  lemma CtrlFire(ctx: Ctx, s: State, f: Firing)
    requires ctx.Valid() && Ready(ctx, s, f) && f.FireCtrl?
    ensures var c := ModelDeploy(f.account, ctx.interval);
      && Fire(ctx, s, f) == State(WithCtrl(s.env, f.account, c, true), s.creds, s.facts[ControlsController(c) := Derive(ctx, s, f)], s.eph)
      && EnvGrew(s.env, WithCtrl(s.env, f.account, c, true))
  {
    hide Reconcile;
    var m := Unreconciled(s.env, f.account, ModelDeploy(f.account, ctx.interval), true);
    ReconcileKeepsPods(m);
    ReconcileOnlyPods(m);
  }

  lemma FiringGrowsEnv(ctx: Ctx, s: State, f: Firing)
    requires ctx.Valid() && Ready(ctx, s, f)
    ensures EnvGrew(s.env, Fire(ctx, s, f).env)
  {
    hide Reconcile;
    match f {
      case FirePod(_, _) => PodFire(ctx, s, f);
      case FireCtrl(_, _) => CtrlFire(ctx, s, f);
      case _ =>
    }
  }
}
