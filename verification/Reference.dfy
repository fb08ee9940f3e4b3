/** The independent reference checker: its own reading of the semantics and its single-step
    transitions, with at most `limit` live created workloads per account
    (packages/afterlock_reference/__init__.py). */
module Reference {
  import opened Model
  import opened Semantics
  import opened Attack

  // ---------------------------------------------------------------- its own semantics

  datatype CredVerdict = CredOk | CredBad | CredUnsupported

  /** `window`: `None` checks at the environment's time; `Some(lo)` asks for any instant from `lo`
      to the environment's time. */
  function CredCheck(st: Static, e: Env, c: Cred, window: Option<Option<int>>): CredVerdict {
    if c.kind != "sa_token" then CredUnsupported
    else if c.user.OtherUser? then CredUnsupported
    else
      var earliest: Option<int> := if window.None? then Some(e.time) else window.value;
      if c.expires.Some? && earliest.Some? && !(earliest.value < c.expires.value) then CredBad
      else if c.audience !in st.api then CredBad
      else if c.user.account !in e.sas || (c.saUid.Some? && e.sas[c.user.account] != c.saUid.value) then CredBad
      else if c.boundPod.Some? && (c.boundPod.value !in e.pods || e.pods[c.boundPod.value].Acct() != c.user.account) then CredBad
      else CredOk
  }

  function RuleOf(window: Option<Option<int>>): UseRule {
    if window.None? then Now else Window(window.value)
  }

  /** The checker's earliest-instant shortcut decides exactly whether some instant will do. */
  lemma CredCheckIsExact(st: Static, e: Env, c: Cred, window: Option<Option<int>>)
    requires window.Some? && window.value.Some? ==> window.value.value <= e.time
    ensures CredCheck(st, e, c, window).CredOk? <==> CanUse(st, e, c, RuleOf(window))
    ensures CredCheck(st, e, c, window).CredUnsupported? <==> CredentialUsable(st, e, c, e.time).Unsupported?
  {
    if window.Some? {
      var lo := window.value;
      if CredCheck(st, e, c, window).CredOk? {
        var t := if lo.Some? then lo.value else if c.expires.Some? && c.expires.value <= e.time then c.expires.value - 1 else e.time;
        assert (lo.None? || lo.value <= t) && t <= e.time && CredentialUsable(st, e, c, t).Usable?;
      }
      if CanUse(st, e, c, Window(lo)) {
        var t :| (lo.None? || lo.value <= t) && t <= e.time && CredentialUsable(st, e, c, t).Usable?;
      }
    }
  }

  /** First a scan for undecidable policies, then a scan for denials. */
  function AdmissionVerdict(st: Static, creator: User, ns: string, sa: string): Admission {
    var relevant := set p | p in st.policies && p.ns == ns;
    if exists p :: p in relevant && !p.supported then Undecided
    else if exists p :: p in relevant && Refuses(p, creator, sa) then Deny
    else Allow
  }

  predicate Refuses(p: Policy, creator: User, sa: string) {
    if creator in p.allowed then !p.allowed[creator].any && sa !in p.allowed[creator].names
    else p.wildcard.Some? && !p.wildcard.value.any && sa !in p.wildcard.value.names
  }

  lemma VerdictsAgree(st: Static, creator: User, ns: string, sa: string)
    ensures AdmissionVerdict(st, creator, ns, sa) == AdmissionDecision(st, creator, ns, sa)
  {
    var relevant := set p | p in st.policies && p.ns == ns;
    assert forall p :: Refuses(p, creator, sa) <==> PolicyDenies(p, creator, sa);
    assert (exists p :: p in relevant && Refuses(p, creator, sa)) <==> (exists p :: p in st.policies && p.ns == ns && PolicyDenies(p, creator, sa));
  }

  /** Whether a service accepts a version, superseded ones while their deadline is ahead. */
  predicate Honours(e: Env, svc: Service, version: int) {
    svc.accepted == version || exists g :: g in svc.grace && g.version == version && e.time < g.until
  }

  // ---------------------------------------------------------------- its transitions

  /** A state of the explorer; the sequence numbers name the next objects created. */
  datatype RefState = RefState(world: World, pods: nat, deploys: nat)

  /** Live workloads of an account created so far. */
  function MyPods(e: Env, a: Account): set<Uid> { set u | u in e.pods && u.RefPod? && e.pods[u].Acct() == a }
  function MyCtrls(e: Env, a: Account): set<Uid> { set c | c in e.ctrls && c.RefDeploy? && e.ctrls[c].Acct() == a }

  function ObtainActs(st: Static, w: World): set<Act>
    requires st.api != []
  {
    set u, aud | u in w.att.pods && u in w.env.pods && w.env.pods[u].Acct() in w.env.sas && aud in Audiences(st, w.env.pods[u])
      && Token(st, w.env, u, aud) !in w.att.creds :: Obtain(u, aud)
  }

  function OwnActs(w: World): set<Act> {
    set u | u in w.env.pods && w.env.pods[u].owner.Some? && w.env.pods[u].owner.value in w.att.ctrls && u !in w.att.pods :: Own(u)
  }

  function ReadActs(st: Static, w: World, window: Option<Option<int>>): set<Act> {
    set c, s | c in w.att.creds && s in w.env.secrets && CredCheck(st, w.env, c, window).CredOk?
      && CanRead(st, w.env.bindings, c.user, s) && Known(s, w.env.secrets[s]) !in w.att.know :: Read(c, s)
  }

  function ExecActs(st: Static, w: World, window: Option<Option<int>>): set<Act> {
    set c, u | c in w.att.creds && u in w.env.pods && CredCheck(st, w.env, c, window).CredOk?
      && MayExec(st, w.env, c.user, u) && u !in w.att.pods :: Exec(c, u)
  }

  predicate MaySubmit(st: Static, e: Env, user: User, a: Account, resource: string) {
    a in e.sas && Authorized(st, e.bindings, user, "create", resource, a.ns, None) && AdmissionVerdict(st, user, a.ns, a.name).Allow?
  }

  function PodActs(st: Static, limit: nat, s: RefState, window: Option<Option<int>>): set<Act> {
    var w := s.world;
    set c, a | c in w.att.creds && a in w.env.sas && CredCheck(st, w.env, c, window).CredOk?
      && MaySubmit(st, w.env, c.user, a, "pods") && |MyPods(w.env, a)| < limit :: NewPod(c, a, RefPod(a, s.pods))
  }

  function CtrlActs(st: Static, limit: nat, s: RefState, window: Option<Option<int>>): set<Act> {
    var w := s.world;
    set c, a | c in w.att.creds && a in w.env.sas && CredCheck(st, w.env, c, window).CredOk?
      && MaySubmit(st, w.env, c.user, a, "deployments") && |MyCtrls(w.env, a)| < limit :: NewCtrl(c, a, RefDeploy(a, s.deploys), false)
  }

  /** Every single attacker step the explorer tries from a state. */
  function RefActs(st: Static, limit: nat, s: RefState, window: Option<Option<int>>): set<Act>
    requires st.api != []
  {
    ObtainActs(st, s.world) + OwnActs(s.world) + ReadActs(st, s.world, window) + ExecActs(st, s.world, window)
    + PodActs(st, limit, s, window) + CtrlActs(st, limit, s, window)
  }

  function RefDo(st: Static, s: RefState, act: Act): RefState {
    RefState(Do(st, s.world, act), if act.NewPod? then s.pods + 1 else s.pods, if act.NewCtrl? then s.deploys + 1 else s.deploys)
  }

  /** Sequence numbers run ahead of every live object named with them. */
  ghost predicate Numbered(s: RefState) {
    && (forall a: Account, n: nat :: RefPod(a, n) in s.world.env.pods ==> n < s.pods)
    && (forall a: Account, n: nat :: RefDeploy(a, n) in s.world.env.ctrls ==> n < s.deploys)
  }

  ghost predicate WindowFits(window: Option<Option<int>>, e: Env) {
    window.Some? && window.value.Some? ==> window.value.value <= e.time
  }

  /** Each of the explorer's steps is an attacker step of the general model. */
  lemma RefActIsLegal(st: Static, limit: nat, s: RefState, window: Option<Option<int>>, act: Act)
    requires st.api != [] && Numbered(s) && WindowFits(window, s.world.env) && act in RefActs(st, limit, s, window)
    ensures Enabled(st, RuleOf(window), s.world, act)
  {
    match act {
      case Obtain(_, _) =>
      case Own(_) =>
      case Read(c, _) => CredCheckIsExact(st, s.world.env, c, window);
      case Exec(c, _) => CredCheckIsExact(st, s.world.env, c, window);
      case NewPod(c, a, _) =>
        CredCheckIsExact(st, s.world.env, c, window);
        VerdictsAgree(st, c.user, a.ns, a.name);
      case NewCtrl(c, a, _, _) =>
        CredCheckIsExact(st, s.world.env, c, window);
        VerdictsAgree(st, c.user, a.ns, a.name);
    }
  }

  lemma RefDoNumbered(st: Static, limit: nat, s: RefState, window: Option<Option<int>>, act: Act)
    requires st.api != [] && Numbered(s) && WindowFits(window, s.world.env) && act in RefActs(st, limit, s, window)
    ensures Numbered(RefDo(st, s, act))
  {
    hide Reconcile, Text;
    if act.NewCtrl? {
      var m := Unreconciled(s.world.env, act.account, act.uid, act.fromZero);
      ReconcileKeepsPods(m);
      ReconcileOnlyPods(m);
    }
  }
}
