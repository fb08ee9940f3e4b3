/** The reference checker's own environment (packages/afterlock_reference/__init__.py): frozen sets
    of rows instead of dictionaries, with its own defender actions, reconciliation and binding
    lookup. They do what the engine's do. */
module Frozen {
  import opened Model
  import opened Semantics
  import opened LiveEnvironment

  // ---------------------------------------------------------------- rows

  datatype SaRow = SaRow(ns: string, name: string, uid: string)
  datatype PodRow = PodRow(uid: Uid, ns: string, name: string, sa: string, audiences: seq<string>, owner: Option<Uid>)
  datatype CtrlRow = CtrlRow(uid: Uid, ns: string, name: string, sa: string, audiences: seq<string>)
  datatype SecretRow = SecretRow(ns: string, name: string, version: int)
  datatype ServiceRow = ServiceRow(name: string, ns: string, secret: string, accepted: int, delay: nat, former: set<Grace>)

  /** Bindings are kept as keys; their bodies never change. */
  datatype Rows = Rows(
    time: int, sas: set<SaRow>, pods: set<PodRow>, ctrls: set<CtrlRow>, bindings: set<ObjKey>,
    secrets: set<SecretRow>, services: set<ServiceRow>, counters: map<Uid, int>)

  function PodRowOf(u: Uid, p: Pod): PodRow { PodRow(u, p.ns, p.name, p.sa, p.audiences, p.owner) }
  function CtrlRowOf(u: Uid, c: Controller): CtrlRow { CtrlRow(u, c.ns, c.name, c.sa, c.audiences) }
  function ServiceRowOf(n: string, s: Service): ServiceRow { ServiceRow(n, s.source.ns, s.source.name, s.accepted, s.delay, s.grace) }

  function SaRows(m: map<Account, string>): set<SaRow> { set a | a in m :: SaRow(a.ns, a.name, m[a]) }
  function PodRows(m: map<Uid, Pod>): set<PodRow> { set u | u in m :: PodRowOf(u, m[u]) }
  function CtrlRows(m: map<Uid, Controller>): set<CtrlRow> { set c | c in m :: CtrlRowOf(c, m[c]) }
  function SecretRows(m: map<SecretKey, int>): set<SecretRow> { set k | k in m :: SecretRow(k.ns, k.name, m[k]) }
  function ServiceRows(m: map<string, Service>): set<ServiceRow> { set n | n in m :: ServiceRowOf(n, m[n]) }

  function Freeze(e: Env): Rows {
    Rows(e.time, SaRows(e.sas), PodRows(e.pods), CtrlRows(e.ctrls), e.bindings.Keys, SecretRows(e.secrets), ServiceRows(e.services), e.counters)
  }

  lemma InSaRows(m: map<Account, string>, r: SaRow)
    ensures r in SaRows(m) <==> Account(r.ns, r.name) in m && m[Account(r.ns, r.name)] == r.uid
  {
    if Account(r.ns, r.name) in m { assert SaRow(r.ns, r.name, m[Account(r.ns, r.name)]) in SaRows(m); }
  }

  lemma InPodRows(m: map<Uid, Pod>, r: PodRow)
    ensures r in PodRows(m) <==> r.uid in m && r == PodRowOf(r.uid, m[r.uid])
  {
  }

  lemma InCtrlRows(m: map<Uid, Controller>, r: CtrlRow)
    ensures r in CtrlRows(m) <==> r.uid in m && r == CtrlRowOf(r.uid, m[r.uid])
  {
  }

  lemma InSecretRows(m: map<SecretKey, int>, r: SecretRow)
    ensures r in SecretRows(m) <==> SecretKey(r.ns, r.name) in m && m[SecretKey(r.ns, r.name)] == r.version
  {
    if SecretKey(r.ns, r.name) in m { assert SecretRow(r.ns, r.name, m[SecretKey(r.ns, r.name)]) in SecretRows(m); }
  }

  lemma InServiceRows(m: map<string, Service>, r: ServiceRow)
    ensures r in ServiceRows(m) <==> r.name in m && r == ServiceRowOf(r.name, m[r.name])
  {
  }

  // ---------------------------------------------------------------- defender actions

  /** A rotation of the service in the given row. */
  ghost function RotateRow(r: Rows, svc: ServiceRow): Rows {
    var current := set s | s in r.secrets && s.ns == svc.ns && s.name == svc.secret;
    var version := Highest(svc.accepted, current) + 1;
    var former := if svc.delay != 0 then svc.former + {Grace(svc.accepted, r.time + svc.delay)} else svc.former;
    r.(secrets := (r.secrets - current) + (if current != {} then {SecretRow(svc.ns, svc.secret, version)} else {}),
       services := (r.services - {svc}) + {svc.(accepted := version, former := former)})
  }

  /** The greatest version of the rows, or `least` if none is greater. */
  ghost function Highest(least: int, rows: set<SecretRow>): int {
    if exists s :: IsHighest(least, rows, s)
    then (var s :| IsHighest(least, rows, s); s.version)
    else least
  }

  predicate IsHighest(least: int, rows: set<SecretRow>, s: SecretRow) {
    s in rows && s.version > least && forall t :: t in rows ==> t.version <= s.version
  }

  ghost function DefendRows(r: Rows, a: Action): Rows {
    match a
    case RemoveBinding(key) => r.(bindings := r.bindings - {key})
    case DeletePod(uid) => r.(pods := set p | p in r.pods && p.uid != uid)
    case DeleteController(uid) =>
      r.(ctrls := (set c | c in r.ctrls && c.uid != uid), pods := (set p | p in r.pods && p.owner != Some(uid)))
    case DeletePodsExcept(acct, keep) =>
      r.(pods := set p | p in r.pods && !(p.ns == acct.ns && p.sa == acct.name && p.uid !in keep))
    case DeleteControllersExcept(acct, keep) =>
      var gone := set c | c in r.ctrls && c.ns == acct.ns && c.sa == acct.name && c.uid !in keep :: c.uid;
      r.(ctrls := (set c | c in r.ctrls && c.uid !in gone), pods := (set p | p in r.pods && !(p.owner.Some? && p.owner.value in gone)))
    case DeleteServiceAccount(acct) => r.(sas := set s | s in r.sas && !(s.ns == acct.ns && s.name == acct.name))
    case Rotate(service) =>
      if exists svc :: svc in r.services && svc.name == service
      then (var svc :| svc in r.services && svc.name == service; RotateRow(r, svc))
      else r
    case Wait(seconds) => r.(time := r.time + seconds)
  }

  lemma SameRows<T>(a: set<T>, b: set<T>)
    requires forall x :: x in a <==> x in b
    ensures a == b
  {
  }

  lemma PodsLeft(m: map<Uid, Pod>, n: map<Uid, Pod>, rows: set<PodRow>)
    requires forall r :: r in rows ==> r in PodRows(m) && r.uid in n
    requires forall u :: u in n ==> u in m && n[u] == m[u] && PodRowOf(u, m[u]) in rows
    ensures rows == PodRows(n)
  {
    forall r: PodRow
      ensures r in rows <==> r in PodRows(n)
    {
      InPodRows(m, r);
      InPodRows(n, r);
    }
  }

  lemma CtrlsLeft(m: map<Uid, Controller>, n: map<Uid, Controller>, rows: set<CtrlRow>)
    requires forall r :: r in rows ==> r in CtrlRows(m) && r.uid in n
    requires forall u :: u in n ==> u in m && n[u] == m[u] && CtrlRowOf(u, m[u]) in rows
    ensures rows == CtrlRows(n)
  {
    forall r: CtrlRow
      ensures r in rows <==> r in CtrlRows(n)
    {
      InCtrlRows(m, r);
      InCtrlRows(n, r);
    }
  }

  /** The parser wants versions of at least 1; the two computations of a new version agree then. */
  predicate Versioned(e: Env) {
    forall n :: n in e.services ==> e.services[n].accepted >= 0
  }

  lemma VersionsStay(e: Env, a: Action)
    requires Versioned(e)
    ensures Versioned(Defend(e, a)) && Versioned(Reconcile(e))
  {
    hide Reconcile;
    ReconcileOnlyPods(e);
  }

  lemma OnlyVersion(e: Env, svc: ServiceRow, current: set<SecretRow>)
    requires current == set s | s in SecretRows(e.secrets) && s.ns == svc.ns && s.name == svc.secret
    ensures var k := SecretKey(svc.ns, svc.secret);
      current == if k in e.secrets then {SecretRow(k.ns, k.name, e.secrets[k])} else {}
  {
    var k := SecretKey(svc.ns, svc.secret);
    forall s: SecretRow
      ensures s in current <==> k in e.secrets && s == SecretRow(k.ns, k.name, e.secrets[k])
    {
      InSecretRows(e.secrets, s);
    }
  }

  lemma HighestOfOne(least: int, row: SecretRow)
    ensures Highest(least, {row}) == (if row.version > least then row.version else least) && Highest(least, {}) == least
  {
    if row.version > least { assert IsHighest(least, {row}, row); }
  }

  lemma RotationAgrees(e: Env, n: string)
    requires Versioned(e) && n in e.services
    ensures RotateRow(Freeze(e), ServiceRowOf(n, e.services[n])) == Freeze(Defend(e, Rotate(n)))
  {
    hide Highest;
    var svc, d, k := ServiceRowOf(n, e.services[n]), Defend(e, Rotate(n)), e.services[n].source;
    var r := Freeze(e);
    var current := set s | s in r.secrets && s.ns == svc.ns && s.name == svc.secret;
    OnlyVersion(e, svc, current);
    HighestOfOne(svc.accepted, SecretRow(k.ns, k.name, if k in e.secrets then e.secrets[k] else 0));
    var out := RotateRow(r, svc);
    forall s: SecretRow
      ensures s in out.secrets <==> s in SecretRows(d.secrets)
    {
      InSecretRows(e.secrets, s);
      InSecretRows(d.secrets, s);
    }
    forall s: ServiceRow
      ensures s in out.services <==> s in ServiceRows(d.services)
    {
      InServiceRows(e.services, s);
      InServiceRows(d.services, s);
    }
    SameRows(out.secrets, SecretRows(d.secrets));
    SameRows(out.services, ServiceRows(d.services));
  }

  lemma OneRow(e: Env, n: string)
    ensures (exists svc :: svc in Freeze(e).services && svc.name == n) <==> n in e.services
    ensures forall svc :: svc in Freeze(e).services && svc.name == n ==> n in e.services && svc == ServiceRowOf(n, e.services[n])
  {
    if n in e.services { assert ServiceRowOf(n, e.services[n]) in Freeze(e).services; }
  }

  lemma RowsThere(e: Env)
    ensures forall u :: u in e.pods ==> PodRowOf(u, e.pods[u]) in PodRows(e.pods)
    ensures forall c :: c in e.ctrls ==> CtrlRowOf(c, e.ctrls[c]) in CtrlRows(e.ctrls)
  {
  }

  lemma PodDeletionsAgree(e: Env, a: Action)
    requires a.DeletePod? || a.DeletePodsExcept?
    ensures DefendRows(Freeze(e), a) == Freeze(Defend(e, a))
  {
    hide SaRows, SecretRows, ServiceRows, CtrlRows;
    RowsThere(e);
    PodsLeft(e.pods, Defend(e, a).pods, DefendRows(Freeze(e), a).pods);
  }

  lemma ControllerGone(e: Env, uid: Uid)
    ensures DefendRows(Freeze(e), DeleteController(uid)) == Freeze(Defend(e, DeleteController(uid)))
  {
    hide SaRows, SecretRows, ServiceRows;
    var out, d := DefendRows(Freeze(e), DeleteController(uid)), Defend(e, DeleteController(uid));
    RowsThere(e);
    PodsLeft(e.pods, d.pods, out.pods);
    CtrlsLeft(e.ctrls, d.ctrls, out.ctrls);
  }

  lemma ControllersGone(e: Env, acct: Account, keep: set<Uid>)
    ensures DefendRows(Freeze(e), DeleteControllersExcept(acct, keep)) == Freeze(Defend(e, DeleteControllersExcept(acct, keep)))
  {
    hide SaRows, SecretRows, ServiceRows;
    var a := DeleteControllersExcept(acct, keep);
    var out, d := DefendRows(Freeze(e), a), Defend(e, a);
    Gone(e, acct, keep);
    RowsThere(e);
    PodsLeft(e.pods, d.pods, out.pods);
    CtrlsLeft(e.ctrls, d.ctrls, out.ctrls);
  }

  lemma Gone(e: Env, acct: Account, keep: set<Uid>)
    ensures (set c | c in CtrlRows(e.ctrls) && c.ns == acct.ns && c.sa == acct.name && c.uid !in keep :: c.uid)
         == set c | c in e.ctrls && e.ctrls[c].Acct() == acct && c !in keep
  {
    var gone := set c | c in CtrlRows(e.ctrls) && c.ns == acct.ns && c.sa == acct.name && c.uid !in keep :: c.uid;
    forall u: Uid
      ensures u in gone <==> u in e.ctrls && e.ctrls[u].Acct() == acct && u !in keep
    {
      if u in e.ctrls { assert CtrlRowOf(u, e.ctrls[u]) in CtrlRows(e.ctrls); }
    }
  }

  lemma AccountGone(e: Env, acct: Account)
    ensures DefendRows(Freeze(e), DeleteServiceAccount(acct)) == Freeze(Defend(e, DeleteServiceAccount(acct)))
  {
    var out, d := DefendRows(Freeze(e), DeleteServiceAccount(acct)), Defend(e, DeleteServiceAccount(acct));
    forall s: SaRow
      ensures s in out.sas <==> s in SaRows(d.sas)
    {
      InSaRows(e.sas, s);
      InSaRows(d.sas, s);
    }
    SameRows(out.sas, SaRows(d.sas));
  }

  /** Every defender action does to the rows what the engine's does to the dictionaries. */
  lemma DefendAgrees(e: Env, a: Action)
    requires Versioned(e)
    ensures DefendRows(Freeze(e), a) == Freeze(Defend(e, a))
  {
    hide RotateRow;
    match a {
      case RemoveBinding(key) => assert (e.bindings - {key}).Keys == e.bindings.Keys - {key};
      case DeleteServiceAccount(acct) => AccountGone(e, acct);
      case Rotate(n) =>
        OneRow(e, n);
        if n in e.services { RotationAgrees(e, n); }
      case Wait(_) =>
      case DeletePod(_) => PodDeletionsAgree(e, a);
      case DeletePodsExcept(_, _) => PodDeletionsAgree(e, a);
      case DeleteController(uid) => ControllerGone(e, uid);
      case DeleteControllersExcept(acct, keep) => ControllersGone(e, acct, keep);
    }
  }

  // ---------------------------------------------------------------- reconciliation

  lemma OwnedRows(m: map<Uid, Pod>, c: Uid)
    ensures (exists p :: p in PodRows(m) && p.owner == Some(c)) <==> Owns(m, c)
  {
    if Owns(m, c) {
      var u :| u in m && m[u].owner == Some(c);
      assert PodRowOf(u, m[u]) in PodRows(m);
    }
  }

  lemma RowUids(m: map<Uid, Pod>)
    ensures (set p | p in PodRows(m) :: p.uid) == m.Keys
  {
    forall u
      ensures u in (set p | p in PodRows(m) :: p.uid) <==> u in m.Keys
    {
      if u in m { assert PodRowOf(u, m[u]) in PodRows(m); }
    }
  }

  lemma MoreRows(m: map<Uid, Pod>, u: Uid, p: Pod)
    requires u !in m
    ensures PodRows(m[u := p]) == PodRows(m) + {PodRowOf(u, p)}
  {
    forall r: PodRow
      ensures r in PodRows(m[u := p]) <==> r in PodRows(m) + {PodRowOf(u, p)}
    {
      InPodRows(m, r);
      InPodRows(m[u := p], r);
    }
  }

  /** The first number from `first` on whose UID no row has. */
  method FreeNumber(taken: set<Uid>, c: Uid, first: int) returns (k: int)
    ensures k == FirstFree(taken, c, first)
  {
    k := first;
    while Replica(c, k) in taken
      invariant k >= first && FirstFree(taken, c, first) == FirstFree(taken, c, k)
      decreases |TakenFrom(taken, c, k)|
    {
      assert TakenFrom(taken, c, k + 1) == TakenFrom(taken, c, k) - {Replica(c, k)};
      k := k + 1;
    }
  }

  /** One controller after the other, each looking at the rows so far. */
  method ReconcileRows(r: Rows, ghost e: Env) returns (out: Rows)
    requires r == Freeze(e)
    ensures out == Freeze(Reconcile(e))
  {
    hide PartlyReconciled, Reconcile, Owns, NextNumber, FirstFree, PodRows, CtrlRows, SaRows, SecretRows, ServiceRows;
    var pods, counters, todo := r.pods, r.counters, r.ctrls;
    ghost var done: set<Uid> := {};
    NothingReconciled(e);
    while todo != {}
      invariant todo <= r.ctrls && done <= e.ctrls.Keys && forall c :: c in r.ctrls ==> (c in todo <==> c.uid !in done)
      invariant pods == PodRows(PartlyReconciled(e, done).pods) && counters == PartlyReconciled(e, done).counters
      decreases |todo|
    {
      var c :| c in todo;
      InCtrlRows(e.ctrls, c);
      ghost var p := PartlyReconciled(e, done);
      OneMore(e, done, c.uid);
      OwnedRows(p.pods, c.uid);
      RowUids(p.pods);
      NumberOf(p, c.uid);
      OthersTodo(e, r.ctrls, c);
      if !(exists q :: q in pods && q.owner == Some(c.uid)) {
        var k := FreeNumber(set q | q in pods :: q.uid, c.uid, (if c.uid in counters then counters[c.uid] else 0) + 1);
        MoreRows(p.pods, Replica(c.uid, k), ReplicaOf(e.ctrls[c.uid], c.uid, k));
        counters := counters[c.uid := k];
        pods := pods + {PodRow(Replica(c.uid, k), c.ns, ReplicaName(c.name, k), c.sa, c.audiences, Some(c.uid))};
      }
      todo := todo - {c};
      done := done + {c.uid};
    }
    assert done == e.ctrls.Keys by { AllDone(e, done, r.ctrls); }
    AllReconciled(e);
    ReconcileOnlyPods(e);
    out := r.(pods := pods, counters := counters);
  }

  lemma NumberOf(p: Env, c: Uid)
    ensures NextNumber(p, c) == FirstFree(p.pods.Keys, c, (if c in p.counters then p.counters[c] else 0) + 1)
  {
  }

  lemma OthersTodo(e: Env, rows: set<CtrlRow>, c: CtrlRow)
    requires rows == CtrlRows(e.ctrls) && c in rows
    ensures forall d :: d in rows && d.uid == c.uid ==> d == c
  {
  }

  lemma AllDone(e: Env, done: set<Uid>, rows: set<CtrlRow>)
    requires rows == CtrlRows(e.ctrls) && done <= e.ctrls.Keys && forall c :: c in rows ==> c.uid in done
    ensures done == e.ctrls.Keys
  {
    forall u | u in e.ctrls
      ensures u in done
    {
      assert CtrlRowOf(u, e.ctrls[u]) in rows;
    }
  }

  // ---------------------------------------------------------------- who grants a request

  method AnySubject(subjects: seq<Subject>, user: User) returns (ok: bool)
    ensures ok <==> exists s :: s in subjects && SubjectMatches(s, user)
  {
    ok := false;
    for i := 0 to |subjects|
      invariant ok <==> exists j :: 0 <= j < i && SubjectMatches(subjects[j], user)
    {
      match subjects[i] {
        case UserSubject(u) => if u == user { ok := true; }
        case SaSubject(a) => if user == SaUser(a) { ok := true; }
        case GroupSubject(g) =>
          if g.Authenticated? || (user.SaUser? && (g.AllServiceAccounts? || g == NamespaceServiceAccounts(user.account.ns))) { ok := true; }
      }
    }
  }

  method AnyRule(rules: seq<PolicyRule>, verb: string, resource: string, name: Option<string>) returns (ok: bool)
    ensures ok <==> exists r :: r in rules && r.Matches(verb, resource, name)
  {
    ok := false;
    for i := 0 to |rules|
      invariant ok <==> exists j :: 0 <= j < i && rules[j].Matches(verb, resource, name)
    {
      var r := rules[i];
      if ("*" in r.verbs || verb in r.verbs) && ("*" in r.resources || resource in r.resources)
        && (r.names.None? || (name.Some? && name.value in r.names.value)) { ok := true; }
    }
  }

  method BindingGrants(st: Static, b: Binding, user: User, verb: string, resource: string, ns: string, name: Option<string>) returns (ok: bool)
    ensures ok <==> Grants(st, b, user, verb, resource, ns, name)
  {
    hide SubjectMatches;
    if b.ns.Some? && b.ns.value != ns { return false; }
    ok := AnySubject(b.subjects, user);
    var role := ObjKey(if b.toRole then b.ns else None, b.roleName);
    if !ok || role !in st.roles { return false; }
    ok := AnyRule(st.roles[role], verb, resource, name);
  }

  /** Goes through the bindings left and their subjects; the bodies are those of the inventory. */
  method Granting(st: Static, bodies: map<ObjKey, Binding>, keys: set<ObjKey>, user: User, verb: string, resource: string, ns: string, name: Option<string>)
    returns (out: set<ObjKey>)
    requires keys <= bodies.Keys
    ensures out == AuthorizingBindings(st, map k | k in keys :: bodies[k], user, verb, resource, ns, name)
  {
    hide Grants;
    out := {};
    var todo := keys;
    while todo != {}
      invariant todo <= keys && out <= keys
      invariant forall k :: k in keys && k !in todo ==> (k in out <==> Grants(st, bodies[k], user, verb, resource, ns, name))
      invariant out !! todo
      decreases |todo|
    {
      var key :| key in todo;
      todo := todo - {key};
      var ok := BindingGrants(st, bodies[key], user, verb, resource, ns, name);
      if ok { out := out + {key}; }
    }
  }
}
