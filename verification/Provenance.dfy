/** What the engine records about each fact: every derivation can be re-checked against the
    environment of its interval, its premises were established before it, and every created object
    it rests on has its creation among its premises. A token's use is remembered by what it needed:
    the Pod with its account, the audience and the time. */
module Provenance {
  import opened Model
  import opened Semantics
  import opened Attack
  import opened Rules
  import opened Shape
  import opened Fixpoint
  import opened Case

  // ---------------------------------------------------------------- one derivation

  /** The fact recorded when the object behind `u` was created. */
  function CreatorFact(u: Uid): Fact {
    if Standalone(Root(u)) then ControlsPod(Root(u)) else ControlsController(Root(u))
  }

  /** In history a use may be claimed at any instant of the window, later only at the interval's. */
  predicate InTime(start: Option<int>, i: int, e: Env, t: int) {
    if i == -1 then (start.Some? ==> start.value <= t) && t <= e.time else t == e.time
  }

  /** The Pod is there with its account, and the API takes tokens for the audience. */
  predicate Yielded(st: Static, e: Env, id: CredId)
    requires id.Projected?
  {
    id.pod in e.pods && e.pods[id.pod].Acct() in e.sas && id.audience in st.api
  }

  predicate Met(st: Static, start: Option<int>, i: int, e: Env, creds: map<CredId, Cred>, c: Condition) {
    match c
    case PodOwned(u, ctrl) => u in e.pods && e.pods[u].owner == Some(ctrl)
    case PodExists(u) => u in e.pods
    case AccountExists(a, uid) => a in e.sas && (uid.Some? ==> e.sas[a] == uid.value)
    case CredentialChecked(id, t) =>
      InTime(start, i, e, t) && id in creds &&
      if id.Projected? then Yielded(st, e, id) && creds[id].expires.Some? && t < creds[id].expires.value
      else CredentialUsable(st, e, creds[id], t).Usable?
    case AuthorizedBy(user, verb, resource, ns, name, via) =>
      via != {} && via == AuthorizingBindings(st, e.bindings, user, verb, resource, ns, name)
    case AdmissionAllows(user, a) => AdmissionDecision(st, user, a.ns, a.name).Allow?
    case SecretAt(k, v) => k in e.secrets && e.secrets[k] == v
    case ServiceSources(name, k) => name in e.services && e.services[name].source == k
    case ServiceAccepts(name, v) => name in e.services && e.services[name].Accepts(v, e.time)
  }

  /** A condition about an object or a credential comes with the fact that provides it. */
  predicate Anchored(c: Condition, premises: seq<Fact>) {
    match c
    case PodOwned(_, ctrl) => ControlsController(ctrl) in premises
    case PodExists(u) => ControlsPod(u) in premises
    case CredentialChecked(id, _) => Possesses(id) in premises
    case _ => true
  }

  predicate Rooted(f: Fact, d: Derivation) {
    match f
    case ControlsPod(u) => Created(u) ==> (d.rule.CreatePod? && u.ModelPod?) || CreatorFact(u) in d.premises
    case ControlsController(c) => Created(c) ==> d.rule.CreateController?
    case Possesses(id) => id.Projected? ==> d.rule.ObtainToken? && d.premises == [ControlsPod(id.pod)]
    case KnowsSecret(_) => d.rule.ReadSecret?
    case _ => true
  }

  /** What a rule did to the tables or read from the environment besides its conditions. */
  predicate Effect(st: Static, e: Env, creds: map<CredId, Cred>, f: Fact, d: Derivation) {
    match d.rule
    case CreatePod => f.ControlsPod? && f.pod.ModelPod? && f.pod.interval == d.interval && f.pod in e.pods
    case CreateController => f.ControlsController? && f.ctrl.ModelDeploy? && f.ctrl.interval == d.interval && f.ctrl in e.ctrls
    case ObtainToken =>
      && f.Possesses? && f.cred.Projected? && f.cred.pod in e.pods && e.pods[f.cred.pod].Acct() in e.sas
      && d.premises == [ControlsPod(f.cred.pod)]
      && f.cred in creds && creds[f.cred] == Token(st, e, f.cred.pod, f.cred.audience)
    case ReadSecret =>
      || (f.KnowsSecret? && f.known.secret in e.secrets && e.secrets[f.known.secret] == f.known.version)
      || (f.CanReadSecret? && f.secret in e.secrets)
    case _ => true
  }

  predicate Explained(st: Static, start: Option<int>, e: Env, creds: map<CredId, Cred>, f: Fact, d: Derivation) {
    && (forall c :: c in d.conditions ==> Met(st, start, d.interval, e, creds, c) && Anchored(c, d.premises))
    && Rooted(f, d) && Effect(st, e, creds, f, d) && d.premises != []
  }

  // ---------------------------------------------------------------- all derivations

  /** `past` holds the environments in which the intervals before the current one ended. */
  datatype Scene = Scene(st: Static, start: Option<int>, evidence: set<Fact>, inputs: map<CredId, Cred>, past: map<int, Env>)
  {
    ghost predicate Valid() {
      && st.Valid()
      && forall f :: f in evidence ==> match f
           case ControlsPod(u) => !Created(u)
           case ControlsController(c) => !Created(c)
           case Possesses(id) => id.InputCred?
           case _ => true
    }

    predicate Fits(ctx: Ctx) {
      ctx == Ctx(st, if ctx.interval == -1 then Window(start) else Now, ctx.interval)
    }
  }

  predicate Accounted(sc: Scene, now: int, s: State, f: Fact, d: Derivation) {
    && (forall p :: p in d.premises ==> p in s.facts)
    && if d.rule.Evidence? then d == EVIDENCE && f in sc.evidence
       else if d.interval == now then Explained(sc.st, sc.start, s.env, s.creds, f, d)
       else d.interval in sc.past && Explained(sc.st, sc.start, sc.past[d.interval], s.creds, f, d)
  }

  ghost predicate FactsAccounted(sc: Scene, now: int, s: State) {
    forall f :: f in s.facts ==> Accounted(sc, now, s, f, s.facts[f])
  }

  /** Whatever is held under the id of a token is one, of some account. */
  predicate TokenShaped(id: CredId, c: Cred) {
    id.Projected? ==> c.kind == "sa_token" && c.user.SaUser? && c.boundPod == Some(id.pod) && c.audience == id.audience && c.expires.Some?
  }

  ghost predicate TokensShaped(s: State) {
    forall id :: id in s.creds ==> TokenShaped(id, s.creds[id])
  }

  /** A refresh may change the account, but never the time for the worse. */
  predicate Lasts(id: CredId, big: Cred, c: Cred) {
    if id.Projected? then c.expires.Some? ==> big.expires.Some? && c.expires.value <= big.expires.value else big == c
  }

  lemma CredsLast(ctx: Ctx, s: State, f: Firing)
    requires ctx.Valid() && TokensShaped(s) && Ready(ctx, s, f)
    ensures TokensShaped(Fire(ctx, s, f))
    ensures forall id :: id in s.creds ==> id in Fire(ctx, s, f).creds && Lasts(id, Fire(ctx, s, f).creds[id], s.creds[id])
  {
    hide WithPod, WithCtrl, Derive, Concludes, Authorized, AdmissionDecision, Accepted;
  }

  /** Input credentials are never replaced. */
  ghost predicate InputsKept(sc: Scene, s: State) {
    forall id :: id in s.creds && id.InputCred? ==> id in sc.inputs && sc.inputs[id] == s.creds[id]
  }

  ghost predicate GoalsAccounted(sc: Scene, now: int, s: State) {
    forall f :: f in s.eph ==> s.eph[f].interval == now && !s.eph[f].rule.Evidence? && Accounted(sc, now, s, f, s.eph[f])
  }

  /** Premises rank below what rests on them. Ranks follow the order of first establishment: a
      refreshed token keeps its rank although its derivation carries a later interval. */
  ghost predicate Ranked(facts: map<Fact, Derivation>, rank: map<Fact, nat>) {
    forall f :: f in facts ==> f in rank && forall p :: p in facts[f].premises ==> p in facts && p in rank && rank[p] < rank[f]
  }

  // ---------------------------------------------------------------- what was explained stays so

  lemma MetKept(st: Static, start: Option<int>, i: int, e: Env, e': Env, creds: map<CredId, Cred>, creds': map<CredId, Cred>, c: Condition)
    requires EnvGrew(e, e') && Met(st, start, i, e, creds, c)
    requires forall id :: id in creds ==> id in creds' && Lasts(id, creds'[id], creds[id])
    ensures Met(st, start, i, e', creds', c)
  {
    hide Authorized, AuthorizingBindings, AdmissionDecision;
  }

  lemma ExplainedKept(st: Static, start: Option<int>, e: Env, e': Env, creds: map<CredId, Cred>, creds': map<CredId, Cred>, f: Fact, d: Derivation)
    requires EnvGrew(e, e') && e.ctrls.Keys <= e'.ctrls.Keys && Explained(st, start, e, creds, f, d)
    requires forall id :: id in creds ==> id in creds' && Lasts(id, creds'[id], creds[id])
    requires f.Possesses? && f.cred in creds ==> creds'[f.cred] == creds[f.cred]
    ensures Explained(st, start, e', creds', f, d)
  {
    hide Met, Lasts;
    forall c | c in d.conditions
      ensures Met(st, start, d.interval, e', creds', c)
    {
      MetKept(st, start, d.interval, e, e', creds, creds', c);
    }
  }

  lemma AccountedKept(sc: Scene, now: int, s: State, t: State, f: Fact, d: Derivation)
    requires Accounted(sc, now, s, f, d) && s.facts.Keys <= t.facts.Keys
    requires EnvGrew(s.env, t.env) && s.env.ctrls.Keys <= t.env.ctrls.Keys
    requires forall id :: id in s.creds ==> id in t.creds && Lasts(id, t.creds[id], s.creds[id])
    requires f.Possesses? && f.cred in s.creds ==> t.creds[f.cred] == s.creds[f.cred]
    ensures Accounted(sc, now, t, f, d)
  {
    hide Explained, Lasts;
    assert forall p :: p in d.premises ==> p in s.facts.Keys;
    if !d.rule.Evidence? {
      if d.interval == now {
        ExplainedKept(sc.st, sc.start, s.env, t.env, s.creds, t.creds, f, d);
      } else {
        EnvGrewSelf(sc.past[d.interval]);
        ExplainedKept(sc.st, sc.start, sc.past[d.interval], sc.past[d.interval], s.creds, t.creds, f, d);
      }
    }
  }

  // ---------------------------------------------------------------- each firing explains what it adds

  lemma UseMet(sc: Scene, ctx: Ctx, s: State, id: CredId)
    requires sc.Fits(ctx) && Acts(ctx, s, id) && RuleFits(ctx, s.env) && TokensShaped(s)
    ensures Met(sc.st, sc.start, ctx.interval, s.env, s.creds, UseChecked(ctx, s, id))
  {
    assert TokenShaped(id, s.creds[id]);
  }

  lemma ReadsMet(sc: Scene, ctx: Ctx, s: State, id: CredId, k: SecretKey)
    requires sc.Fits(ctx) && Acts(ctx, s, id) && RuleFits(ctx, s.env) && TokensShaped(s)
    requires k in s.env.secrets && CanRead(ctx.st, s.env.bindings, s.creds[id].user, k)
    ensures forall c :: c in ReadConditions(ctx, s, id, k) ==>
      Met(sc.st, sc.start, ctx.interval, s.env, s.creds, c) && Anchored(c, [Possesses(id)])
  {
    hide AuthorizingBindings, Accepted, UseChecked;
    UseMet(sc, ctx, s, id);
    UseAnchored(ctx, s, id, [Possesses(id)]);
  }

  lemma UseAnchored(ctx: Ctx, s: State, id: CredId, premises: seq<Fact>)
    requires id in s.creds && Possesses(id) in premises
    ensures Anchored(UseChecked(ctx, s, id), premises)
  {
  }

  lemma CreatesMet(sc: Scene, ctx: Ctx, s: State, id: CredId, a: Account, resource: string)
    requires sc.Fits(ctx) && Acts(ctx, s, id) && RuleFits(ctx, s.env) && TokensShaped(s)
    requires MayCreate(ctx.st, s.env, s.creds[id].user, a, resource)
    ensures forall c :: c in CreateConditions(ctx, s, id, a, resource) ==>
      Met(sc.st, sc.start, ctx.interval, s.env, s.creds, c) && Anchored(c, [Possesses(id)])
  {
    hide AuthorizingBindings, AdmissionDecision, Accepted, UseChecked;
    UseMet(sc, ctx, s, id);
    UseAnchored(ctx, s, id, [Possesses(id)]);
  }

  lemma ReplicaCreator(e: Env, u: Uid)
    requires Shaped(e) && u in e.pods && Created(u)
    ensures Standalone(u) ==> e.pods[u].owner == None
    ensures !Standalone(u) ==> u.Replica? && CreatedDeploy(u.owner) && u.owner in e.ctrls && e.pods[u].owner == Some(u.owner)
    ensures !Standalone(u) ==> CreatorFact(u) == ControlsController(u.owner)
  {
    assert ShapedPod(e, u);
    if u.Replica? { assert Root(u.owner) == u.owner; }
  }

  lemma OwnExplained(sc: Scene, ctx: Ctx, s: State, f: Firing)
    requires ctx.st.api != [] && sc.Fits(ctx) && Ready(ctx, s, f) && f.FireOwn? && Shaped(s.env)
    ensures Explained(sc.st, sc.start, s.env, s.creds, ControlsPod(f.pod), Derive(ctx, s, f))
  {
    if Created(f.pod) { ReplicaCreator(s.env, f.pod); }
  }

  lemma StandaloneControlled(k: int, s: State, u: Uid)
    requires ModelsKnown(k, s) && OnlyModels(s.env) && u in s.env.pods && Standalone(u)
    ensures ControlsPod(u) in s.facts
  {
    assert u == ModelPod(u.account, u.interval);
  }

  lemma ExecRooted(ctx: Ctx, s: State, u: Uid)
    requires Good(ctx.interval, s) && u in s.env.pods && ControlsPod(u) !in s.facts
    ensures Created(u) ==> ObjectPremises(u, s.env.pods[u]) == [CreatorFact(u)]
    ensures !Created(u) ==> ObjectPremises(u, s.env.pods[u]) == []
    ensures forall p :: p in ObjectPremises(u, s.env.pods[u]) ==> p in s.facts
  {
    hide CredsKnown;
    if Created(u) {
      ReplicaCreator(s.env, u);
      if Standalone(u) { StandaloneControlled(ctx.interval, s, u); }
      else { assert u.owner == ModelDeploy(u.owner.account, u.owner.interval); }
    }
  }

  lemma ExecExplained(sc: Scene, ctx: Ctx, s: State, f: Firing)
    requires ctx.st.api != [] && sc.Fits(ctx) && Ready(ctx, s, f) && f.FireExec? && RuleFits(ctx, s.env) && Good(ctx.interval, s) && TokensShaped(s)
    ensures Explained(sc.st, sc.start, s.env, s.creds, ControlsPod(f.pod), Derive(ctx, s, f))
    ensures forall p :: p in Derive(ctx, s, f).premises ==> p in s.facts
  {
    hide AuthorizingBindings, Good, UseChecked, ObjectPremises, CreatorFact;
    UseMet(sc, ctx, s, f.cred);
    ExecRooted(ctx, s, f.pod);
    UseAnchored(ctx, s, f.cred, Derive(ctx, s, f).premises);
  }

  /** The derivation a firing records is explained by the state right after it. */
  lemma FiringExplained(sc: Scene, ctx: Ctx, s: State, f: Firing)
    requires ctx.Valid() && sc.Fits(ctx) && Ready(ctx, s, f) && RuleFits(ctx, s.env) && Good(ctx.interval, s) && TokensShaped(s)
    ensures var t := Fire(ctx, s, f);
      Explained(sc.st, sc.start, t.env, t.creds, Concludes(ctx, s, f), Derive(ctx, s, f))
    ensures forall p :: p in Derive(ctx, s, f).premises ==> p in s.facts
  {
    hide Good, Explained, Reconcile, Authorized, AuthorizingBindings, AdmissionDecision, Accepted, ReadConditions, CreateConditions, ObjectPremises;
    match f {
      case FireOwn(_, _) => GoodShaped(ctx.interval, s); OwnExplained(sc, ctx, s, f);
      case FireExec(_, _) => ExecExplained(sc, ctx, s, f);
      case FireToken(_, _) => TokenExplained(sc, ctx, s, f);
      case FireLearn(_, _) => ReadExplained(sc, ctx, s, f);
      case FireRead(_, _) => ReadExplained(sc, ctx, s, f);
      case FirePod(_, _) => PodExplained(sc, ctx, s, f);
      case FireCtrl(_, _) => CtrlExplained(sc, ctx, s, f);
      case FireDownstream(_, _) => ServiceExplained(sc, ctx, s, f);
      case FireUse(_, _) => ServiceExplained(sc, ctx, s, f);
    }
  }

  lemma GoodShaped(k: int, s: State)
    requires Good(k, s)
    ensures Shaped(s.env)
  {
  }

  lemma TokenExplained(sc: Scene, ctx: Ctx, s: State, f: Firing)
    requires ctx.Valid() && sc.Fits(ctx) && Ready(ctx, s, f) && f.FireToken?
    ensures var t := Fire(ctx, s, f);
      Explained(sc.st, sc.start, t.env, t.creds, Concludes(ctx, s, f), Derive(ctx, s, f))
  {
  }

  lemma ReadExplained(sc: Scene, ctx: Ctx, s: State, f: Firing)
    requires ctx.Valid() && sc.Fits(ctx) && Ready(ctx, s, f) && (f.FireLearn? || f.FireRead?) && RuleFits(ctx, s.env) && TokensShaped(s)
    ensures Explained(sc.st, sc.start, s.env, s.creds, Concludes(ctx, s, f), Derive(ctx, s, f))
  {
    hide ReadConditions, Accepted, CanRead, Met;
    ReadsMet(sc, ctx, s, f.cred, f.secret);
  }

  lemma PodExplained(sc: Scene, ctx: Ctx, s: State, f: Firing)
    requires ctx.Valid() && sc.Fits(ctx) && Ready(ctx, s, f) && f.FirePod? && RuleFits(ctx, s.env) && TokensShaped(s)
    ensures var t := Fire(ctx, s, f);
      Explained(sc.st, sc.start, t.env, t.creds, Concludes(ctx, s, f), Derive(ctx, s, f))
  {
    hide CreateConditions, Accepted, Met, MayCreate, Text;
    CreatesMet(sc, ctx, s, f.cred, f.account, "pods");
    PodFire(ctx, s, f);
    var t := Fire(ctx, s, f);
    CondsKept(sc, ctx.interval, s, t, CreateConditions(ctx, s, f.cred, f.account, "pods"));
  }

  lemma CtrlExplained(sc: Scene, ctx: Ctx, s: State, f: Firing)
    requires ctx.Valid() && sc.Fits(ctx) && Ready(ctx, s, f) && f.FireCtrl? && RuleFits(ctx, s.env) && TokensShaped(s)
    ensures var t := Fire(ctx, s, f);
      Explained(sc.st, sc.start, t.env, t.creds, Concludes(ctx, s, f), Derive(ctx, s, f))
  {
    hide CreateConditions, Accepted, Met, MayCreate, Reconcile, Text;
    CreatesMet(sc, ctx, s, f.cred, f.account, "deployments");
    CtrlFire(ctx, s, f);
    ReconcileOnlyPods(Unreconciled(s.env, f.account, ModelDeploy(f.account, ctx.interval), true));
    var t := Fire(ctx, s, f);
    CondsKept(sc, ctx.interval, s, t, CreateConditions(ctx, s, f.cred, f.account, "deployments"));
  }

  lemma CondsKept(sc: Scene, i: int, s: State, t: State, cs: seq<Condition>)
    requires EnvGrew(s.env, t.env) && t.creds == s.creds
    requires forall c :: c in cs ==> Met(sc.st, sc.start, i, s.env, s.creds, c)
    ensures forall c :: c in cs ==> Met(sc.st, sc.start, i, t.env, t.creds, c)
  {
    hide Met;
    forall id | id in s.creds
      ensures Lasts(id, t.creds[id], s.creds[id])
    {
    }
    forall c | c in cs
      ensures Met(sc.st, sc.start, i, t.env, t.creds, c)
    {
      MetKept(sc.st, sc.start, i, s.env, t.env, s.creds, t.creds, c);
    }
  }

  lemma ServiceExplained(sc: Scene, ctx: Ctx, s: State, f: Firing)
    requires ctx.Valid() && sc.Fits(ctx) && Ready(ctx, s, f) && (f.FireDownstream? || f.FireUse?)
    ensures Explained(sc.st, sc.start, s.env, s.creds, Concludes(ctx, s, f), Derive(ctx, s, f))
  {
  }

  // ---------------------------------------------------------------- over a whole run

  lemma RecordedOf(ctx: Ctx, s: State, f: Firing)
    requires ctx.Valid() && Ready(ctx, s, f)
    ensures var t, fact, d := Fire(ctx, s, f), Concludes(ctx, s, f), Derive(ctx, s, f);
      && t.facts == (if Persistent(fact) then s.facts[fact := d] else s.facts)
      && t.eph == (if Persistent(fact) then s.eph else s.eph[fact := d])
      && d.interval == ctx.interval && !d.rule.Evidence?
      && (forall id :: id in s.creds && (fact.Possesses? ==> id != fact.cred) ==> t.creds[id] == s.creds[id])
      && (Persistent(fact) && fact in s.facts ==> fact.Possesses? && fact.cred.Projected? && d.premises == [ControlsPod(fact.cred.pod)])
  {
  }

  lemma FiringAccounted(sc: Scene, ctx: Ctx, s: State, f: Firing)
    requires TokensShaped(s)
    requires ctx.Valid() && sc.Fits(ctx) && Ready(ctx, s, f) && RuleFits(ctx, s.env) && Good(ctx.interval, s)
    requires FactsAccounted(sc, ctx.interval, s) && GoalsAccounted(sc, ctx.interval, s)
    ensures FactsAccounted(sc, ctx.interval, Fire(ctx, s, f)) && GoalsAccounted(sc, ctx.interval, Fire(ctx, s, f))
  {
    hide Good, TokensShaped, Explained, Ready, Fire, Concludes, Derive, EnvGrew, Lasts, Persistent, Scene.Fits, RuleFits;
    var t, fact, d := Fire(ctx, s, f), Concludes(ctx, s, f), Derive(ctx, s, f);
    FiringExplained(sc, ctx, s, f);
    RecordedOf(ctx, s, f);
    FactsGrow(ctx, s, f);
    CredsLast(ctx, s, f);
    FiringGrowsEnv(ctx, s, f);
    GoalNotToken(ctx.interval, s);
    assert Accounted(sc, ctx.interval, t, fact, d) by {
      assert forall p :: p in d.premises ==> p in s.facts.Keys;
    }
    forall g | g in s.facts && g != fact
      ensures Accounted(sc, ctx.interval, t, g, s.facts[g])
    {
      AccountedKept(sc, ctx.interval, s, t, g, s.facts[g]);
    }
    forall g | g in s.eph
      ensures Accounted(sc, ctx.interval, t, g, s.eph[g])
    {
      AccountedKept(sc, ctx.interval, s, t, g, s.eph[g]);
    }
  }

  lemma GoalNotToken(k: int, s: State)
    requires Good(k, s)
    ensures forall g :: g in s.eph ==> !g.Possesses?
    ensures forall g :: g in s.facts ==> Persistent(g)
  {
  }

  function MaxRank(premises: seq<Fact>, rank: map<Fact, nat>): (m: nat)
    ensures forall p :: p in premises && p in rank ==> rank[p] <= m
  {
    if premises == [] then 0
    else
      var rest := MaxRank(premises[1..], rank);
      if premises[0] in rank && rank[premises[0]] > rest then rank[premises[0]] else rest
  }

  lemma FiringRanked(sc: Scene, ctx: Ctx, s: State, f: Firing, rank: map<Fact, nat>) returns (after: map<Fact, nat>)
    requires sc.Valid() && ctx.Valid() && Ready(ctx, s, f) && FactsAccounted(sc, ctx.interval, s) && Ranked(s.facts, rank)
    requires forall p :: p in Derive(ctx, s, f).premises ==> p in s.facts
    ensures Ranked(Fire(ctx, s, f).facts, after)
  {
    hide Ready, Fire, Concludes, Derive, Persistent;
    var fact, d := Concludes(ctx, s, f), Derive(ctx, s, f);
    RecordedOf(ctx, s, f);
    if !Persistent(fact) {
      after := rank;
    } else if fact in s.facts {
      after := rank;
      RefreshPremises(sc, ctx.interval, s, fact);
    } else {
      after := rank[fact := MaxRank(d.premises, rank) + 1];
    }
  }

  lemma RefreshPremises(sc: Scene, now: int, s: State, fact: Fact)
    requires sc.Valid() && FactsAccounted(sc, now, s) && fact in s.facts && fact.Possesses? && fact.cred.Projected?
    ensures s.facts[fact].premises == [ControlsPod(fact.cred.pod)]
  {
    assert Accounted(sc, now, s, fact, s.facts[fact]);
  }

  lemma FiringKeepsInputs(sc: Scene, ctx: Ctx, s: State, f: Firing)
    requires ctx.st.api != [] && Ready(ctx, s, f) && InputsKept(sc, s)
    ensures InputsKept(sc, Fire(ctx, s, f))
  {
    hide EnvAfter, Derive, Concludes, Token;
  }

  lemma {:induction false} FiringsAccounted(sc: Scene, ctx: Ctx, base: Env, s: State, fs: seq<Firing>, rank: map<Fact, nat>) returns (after: map<Fact, nat>)
    requires sc.Valid() && ctx.Valid() && sc.Fits(ctx) && RuleFits(ctx, s.env)
    requires Good(ctx.interval, s) && EnvInv(base, s.env) && TokensShaped(s)
    requires FactsAccounted(sc, ctx.interval, s) && GoalsAccounted(sc, ctx.interval, s) && Ranked(s.facts, rank) && InputsKept(sc, s)
    requires FireAll(ctx, s, fs).Some?
    ensures var t := FireAll(ctx, s, fs).value;
      && FactsAccounted(sc, ctx.interval, t) && GoalsAccounted(sc, ctx.interval, t) && Ranked(t.facts, after)
      && InputsKept(sc, t) && RuleFits(ctx, t.env) && TokensShaped(t)
  {
    hide Good, EnvInv, TokensShaped, FactsAccounted, GoalsAccounted, InputsKept, Ranked, Ready, Fire, Scene.Valid, Scene.Fits;
    after := rank;
    if fs != [] {
      after := FiringsAccounted(sc, ctx, base, s, fs[..|fs| - 1], rank);
      var m := FireAll(ctx, s, fs[..|fs| - 1]).value;
      var f := fs[|fs| - 1];
      FiringsGrow(ctx, base, s, fs[..|fs| - 1]);
      CredsLast(ctx, m, f);
      FiringExplained(sc, ctx, m, f);
      FiringKeepsInputs(sc, ctx, m, f);
      FiringAccounted(sc, ctx, m, f);
      after := FiringRanked(sc, ctx, m, f, after);
      FiringGrowsEnv(ctx, m, f);
    }
  }
}
