/** The supported Kubernetes semantics, as the engine evaluates them
    (packages/afterlock/semantics.py). */
module Semantics {
  import opened Model

  // ---------------------------------------------------------------- authorization

  predicate GroupContains(g: Group, user: User) {
    match g
    case Authenticated => true
    case AllServiceAccounts => user.SaUser?
    case NamespaceServiceAccounts(ns) => user.SaUser? && user.account.ns == ns
    case OtherGroup(_) => false
  }

  predicate SubjectMatches(s: Subject, user: User) {
    match s
    case SaSubject(a) => user == SaUser(a)
    case UserSubject(u) => u == user
    case GroupSubject(g) => GroupContains(g, user)
  }

  predicate Grants(st: Static, b: Binding, user: User, verb: string, resource: string, ns: string, name: Option<string>) {
    && (b.ns.None? || b.ns.value == ns)
    && (exists s :: s in b.subjects && SubjectMatches(s, user))
    && var role := ObjKey(if b.toRole then b.ns else None, b.roleName);
       role in st.roles && exists rule :: rule in st.roles[role] && rule.Matches(verb, resource, name)
  }

  /** Keys of the bindings that authorize a request; the empty set means denied. */
  function AuthorizingBindings(st: Static, bindings: map<ObjKey, Binding>, user: User, verb: string, resource: string, ns: string, name: Option<string>): set<ObjKey> {
    set k | k in bindings && Grants(st, bindings[k], user, verb, resource, ns, name)
  }

  predicate Authorized(st: Static, bindings: map<ObjKey, Binding>, user: User, verb: string, resource: string, ns: string, name: Option<string>) {
    AuthorizingBindings(st, bindings, user, verb, resource, ns, name) != {}
  }


  /** The verbs are tried in order; any of the three returns Secret data. */
  predicate CanRead(st: Static, bindings: map<ObjKey, Binding>, user: User, key: SecretKey) {
    || Authorized(st, bindings, user, "get", "secrets", key.ns, Some(key.name))
    || Authorized(st, bindings, user, "list", "secrets", key.ns, Some(key.name))
    || Authorized(st, bindings, user, "watch", "secrets", key.ns, Some(key.name))
  }

  // ---------------------------------------------------------------- credentials

  datatype Verdict = Usable | Rejected | Unsupported

  /** Whether the API server would accept `c` at instant `at`. */
  function CredentialUsable(st: Static, e: Env, c: Cred, at: int): Verdict {
    if c.kind != "sa_token" || !c.user.SaUser? then Unsupported
    else if c.expires.Some? && at >= c.expires.value then Rejected
    else if c.audience !in st.api then Rejected
    else if c.user.account !in e.sas then Rejected
    else if c.saUid.Some? && e.sas[c.user.account] != c.saUid.value then Rejected
    else if c.boundPod.Some? && !BoundPodRunsAs(e, c.boundPod.value, c.user.account) then Rejected
    else Usable
  }

  predicate BoundPodRunsAs(e: Env, pod: Uid, a: Account) {
    pod in e.pods && e.pods[pod].Acct() == a
  }

  // ---------------------------------------------------------------- admission

  datatype Admission = Allow | Deny | Undecided

  predicate PolicyDenies(p: Policy, creator: User, sa: string) {
    var entry := if creator in p.allowed then Some(p.allowed[creator]) else p.wildcard;
    entry.Some? && !entry.value.any && sa !in entry.value.names
  }

  function AdmissionDecision(st: Static, creator: User, ns: string, sa: string): Admission {
    if exists p :: p in st.policies && p.ns == ns && !p.supported then Undecided
    else if exists p :: p in st.policies && p.ns == ns && PolicyDenies(p, creator, sa) then Deny
    else Allow
  }

  // ---------------------------------------------------------------- reconciliation

  predicate Owns(pods: map<Uid, Pod>, c: Uid) {
    exists u :: u in pods && pods[u].owner == Some(c)
  }

  /** The replicas of `c` numbered `k` or above that already exist. */
  function TakenFrom(uids: set<Uid>, c: Uid, k: int): set<Uid> {
    set u | u in uids && u.Replica? && u.owner == c && k <= u.k
  }

  /** The first replica number from `k` on whose UID no existing Pod has. */
  function FirstFree(uids: set<Uid>, c: Uid, k: int): (r: int)
    ensures r >= k
    ensures Replica(c, r) !in uids
    ensures forall j :: k <= j < r ==> Replica(c, j) in uids
    decreases |TakenFrom(uids, c, k)|
  {
    if Replica(c, k) !in uids then k
    else
      assert TakenFrom(uids, c, k + 1) == TakenFrom(uids, c, k) - {Replica(c, k)};
      FirstFree(uids, c, k + 1)
  }

  function NextNumber(e: Env, c: Uid): (k: int) {
    FirstFree(e.pods.Keys, c, (if c in e.counters then e.counters[c] else 0) + 1)
  }

  function ReplicaOf(c: Controller, uid: Uid, k: int): Pod {
    Pod(c.ns, ReplicaName(c.name, k), c.sa, c.audiences, Some(uid))
  }

  /** Controllers that own no Pod. */
  function Needy(e: Env): set<Uid> {
    set c | c in e.ctrls && !Owns(e.pods, c)
  }

  function ReplicaUids(e: Env): set<Uid> {
    set c | c in Needy(e) :: Replica(c, NextNumber(e, c))
  }

  function NewReplicas(e: Env): map<Uid, Pod> {
    map u | u in ReplicaUids(e) :: ReplicaOf(e.ctrls[u.owner], u.owner, u.k)
  }

  function NewCounters(e: Env): map<Uid, int> {
    map c | c in Needy(e) :: NextNumber(e, c)
  }

  /** The environment after every controller without a Pod has recreated one. */
  function Reconcile(e: Env): Env {
    e.(pods := e.pods + NewReplicas(e), counters := e.counters + NewCounters(e))
  }

  predicate Reconciled(e: Env) {
    forall c :: c in e.ctrls ==> Owns(e.pods, c)
  }

  // ---------------------------------------------------------------- defender actions

  function Rotated(e: Env, name: string): Env
    requires name in e.services
  {
    var svc := e.services[name];
    var current := if svc.source in e.secrets then e.secrets[svc.source] else 0;
    var version := (if svc.accepted > current then svc.accepted else current) + 1;
    var grace := if svc.delay > 0 then svc.grace + {Grace(svc.accepted, e.time + svc.delay)} else svc.grace;
    e.(secrets := if svc.source in e.secrets then e.secrets[svc.source := version] else e.secrets,
       services := e.services[name := svc.(accepted := version, grace := grace)])
  }

  /** The environment after one defender action, before reconciliation. */
  function Defend(e: Env, a: Action): Env {
    match a
    case RemoveBinding(key) => e.(bindings := e.bindings - {key})
    case DeletePod(uid) => e.(pods := e.pods - {uid})
    case DeleteController(uid) =>
      e.(ctrls := e.ctrls - {uid}, pods := map u | u in e.pods && e.pods[u].owner != Some(uid) :: e.pods[u])
    case DeletePodsExcept(acct, keep) =>
      e.(pods := map u | u in e.pods && (e.pods[u].Acct() != acct || u in keep) :: e.pods[u])
    case DeleteControllersExcept(acct, keep) =>
      var victims := set c | c in e.ctrls && e.ctrls[c].Acct() == acct && c !in keep;
      e.(ctrls := e.ctrls - victims,
         pods := map u | u in e.pods && !(e.pods[u].owner.Some? && e.pods[u].owner.value in victims) :: e.pods[u])
    case DeleteServiceAccount(acct) => e.(sas := e.sas - {acct})
    case Rotate(service) => if service in e.services then Rotated(e, service) else e
    case Wait(seconds) => e.(time := e.time + seconds)
  }

  /** Every object of `d` is an object of `e`, unchanged. */
  ghost predicate Shrinks(d: Env, e: Env) {
    && (forall u :: u in d.pods ==> u in e.pods && d.pods[u] == e.pods[u])
    && (forall c :: c in d.ctrls ==> c in e.ctrls && d.ctrls[c] == e.ctrls[c])
    && (forall a :: a in d.sas ==> a in e.sas && d.sas[a] == e.sas[a])
  }

  /** The defender only removes objects, and time does not run back; what survives is untouched. */
  lemma DefendShrinks(e: Env, a: Action)
    ensures Shrinks(Defend(e, a), e) && e.time <= Defend(e, a).time
  {
  }

  // ---------------------------------------------------------------- what reconciliation keeps

  /** No Pod is lost or replaced; each new Pod belongs to a controller that had none and
      carries its settings. */
  lemma ReconcileKeepsPods(e: Env)
    ensures forall u :: u in e.pods ==> u in Reconcile(e).pods && Reconcile(e).pods[u] == e.pods[u]
    ensures forall u :: u in Reconcile(e).pods && u !in e.pods ==>
      u.Replica? && u.owner in e.ctrls && !Owns(e.pods, u.owner) && Reconcile(e).pods[u] == ReplicaOf(e.ctrls[u.owner], u.owner, u.k)
  {
    forall u | u in NewReplicas(e)
      ensures u !in e.pods && u.Replica? && u.owner in Needy(e)
    {
      var c :| c in Needy(e) && u == Replica(c, NextNumber(e, c));
    }
  }

  lemma ReconcileOnlyPods(e: Env)
    ensures Reconcile(e) == e.(pods := Reconcile(e).pods, counters := Reconcile(e).counters)
  {
  }

  /** Every controller ends up owning a Pod. */
  lemma ReconcileServesAll(e: Env)
    ensures Reconciled(Reconcile(e))
  {
    ReconcileKeepsPods(e);
    var r := Reconcile(e);
    forall c | c in r.ctrls
      ensures Owns(r.pods, c)
    {
      if Owns(e.pods, c) {
        var u :| u in e.pods && e.pods[u].owner == Some(c);
        assert u in r.pods;
      } else {
        var u := Replica(c, NextNumber(e, c));
        assert u in ReplicaUids(e);
        assert u in r.pods;
      }
    }
  }

  /** Replica numbers only go up: a number once used is never given to a later replica. */
  lemma ReconcileNumbersRise(e: Env)
    ensures forall u :: u in Reconcile(e).pods && u !in e.pods ==>
      && u.owner in Reconcile(e).counters && Reconcile(e).counters[u.owner] == u.k
      && (u.owner in e.counters ==> e.counters[u.owner] < u.k)
    ensures forall c :: c in e.counters ==> c in Reconcile(e).counters && e.counters[c] <= Reconcile(e).counters[c]
  {
    ReconcileKeepsPods(e);
    forall u | u in Reconcile(e).pods && u !in e.pods
      ensures u.owner in Reconcile(e).counters && Reconcile(e).counters[u.owner] == u.k
      ensures u.owner in e.counters ==> e.counters[u.owner] < u.k
    {
      assert u in ReplicaUids(e);
      var c :| c in Needy(e) && u == Replica(c, NextNumber(e, c));
    }
  }

  /** Reconciling a reconciled environment changes nothing. */
  lemma ReconcileIdempotent(e: Env)
    requires Reconciled(e)
    ensures Reconcile(e) == e
  {
    assert Needy(e) == {};
    assert NewReplicas(e) == map[];
    assert e.pods + NewReplicas(e) == e.pods;
    assert e.counters + NewCounters(e) == e.counters;
  }

  lemma ReconcileTwice(e: Env)
    ensures Reconcile(Reconcile(e)) == Reconcile(e)
  {
    ReconcileServesAll(e);
    ReconcileIdempotent(Reconcile(e));
  }
}
