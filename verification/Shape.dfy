/** Every reachable environment is the attack-free environment of its phase plus created
    objects of a fixed shape: attacker steps never disturb what was there before. */
module Shape {
  import opened Model
  import opened Semantics
  import opened Attack

  predicate ShapedPod(e: Env, u: Uid)
    requires u in e.pods
  {
    var p := e.pods[u];
    && (Standalone(u) || (u.Replica? && CreatedDeploy(u.owner)))
    && p.Acct() == Class(u) && p.audiences == []
    && (Standalone(u) ==> p.owner == None)
    && (u.Replica? ==> p.owner == Some(u.owner) && u.owner in e.ctrls)
  }

  ghost predicate Loose(e: Env) {
    && (forall u :: u in e.pods && Created(u) ==> ShapedPod(e, u))
    && (forall u :: u in e.pods && !Created(u) && e.pods[u].owner.Some? ==> !Created(e.pods[u].owner.value))
    && (forall c :: c in e.ctrls && Created(c) ==>
          CreatedDeploy(c) && e.ctrls[c].Acct() == Class(c) && e.ctrls[c].audiences == [])
  }

  ghost predicate Shaped(e: Env) {
    Loose(e) && forall c :: c in e.ctrls && Created(c) ==> Owns(e.pods, c)
  }

  /** Native objects, and the created ones that go back to an object in `roots`. */
  predicate Keeps(roots: set<Uid>, u: Uid) { !Created(u) || Root(u) in roots }

  function KeptOf<V>(m: map<Uid, V>, roots: set<Uid>): map<Uid, V> {
    map u | u in m && Keeps(roots, u) :: m[u]
  }

  /** The environment as if only `roots` had ever been created. */
  function Restrict(e: Env, roots: set<Uid>): Env {
    e.(pods := KeptOf(e.pods, roots), ctrls := KeptOf(e.ctrls, roots), counters := KeptOf(e.counters, roots))
  }

  /** The environment without created objects. */
  function Native(e: Env): Env {
    e.(pods := NativeOf(e.pods), ctrls := NativeOf(e.ctrls), counters := NativeOf(e.counters))
  }

  function NativeOf<V>(m: map<Uid, V>): map<Uid, V> {
    map u | u in m && !Created(u) :: m[u]
  }

  lemma NativeIsRestriction(e: Env)
    ensures Native(e) == Restrict(e, {})
  {
    assert NativeOf(e.pods) == KeptOf(e.pods, {});
    assert NativeOf(e.ctrls) == KeptOf(e.ctrls, {});
    assert NativeOf(e.counters) == KeptOf(e.counters, {});
  }

  /** The defender never names a created object: their UIDs are reserved. */
  predicate NativeAction(a: Action) {
    match a
    case DeletePod(uid) => !Created(uid)
    case DeleteController(uid) => !Created(uid)
    case DeletePodsExcept(_, keep) => forall u :: u in keep ==> !Created(u)
    case DeleteControllersExcept(_, keep) => forall u :: u in keep ==> !Created(u)
    case _ => true
  }

  lemma DefendKeepsShape(e: Env, a: Action)
    requires Loose(e) && NativeAction(a)
    ensures Loose(Defend(e, a))
  {
  }

  lemma ReconcileShapes(e: Env)
    requires Loose(e)
    ensures Shaped(Reconcile(e))
  {
    hide Reconcile, Text;
    ReconcileKeepsPods(e);
    ReconcileServesAll(e);
    ReconcileOnlyPods(e);
    var r := Reconcile(e);
    forall u | u in r.pods && Created(u)
      ensures ShapedPod(r, u)
    {
      if u in e.pods { assert ShapedPod(e, u); }
    }
  }

  lemma FirstFreeLocal(A: set<Uid>, B: set<Uid>, c: Uid, k: int)
    requires forall j :: Replica(c, j) in A <==> Replica(c, j) in B
    ensures FirstFree(A, c, k) == FirstFree(B, c, k)
  {
    var a, b := FirstFree(A, c, k), FirstFree(B, c, k);
  }

  /** A Pod is kept exactly when the controller owning it is. */
  lemma OwnerKept(e: Env, roots: set<Uid>, u: Uid)
    requires Loose(e) && u in e.pods && e.pods[u].owner.Some?
    ensures Keeps(roots, u) <==> Keeps(roots, e.pods[u].owner.value)
  {
    if Created(u) { assert ShapedPod(e, u); }
  }

  lemma KeptNeedy(e: Env, roots: set<Uid>, c: Uid)
    requires Loose(e) && c in e.ctrls && Keeps(roots, c)
    ensures Owns(Restrict(e, roots).pods, c) <==> Owns(e.pods, c)
    ensures NextNumber(Restrict(e, roots), c) == NextNumber(e, c)
  {
    hide Loose;
    if Owns(e.pods, c) {
      var u :| u in e.pods && e.pods[u].owner == Some(c);
      OwnerKept(e, roots, u);
      assert u in Restrict(e, roots).pods;
    }
    FirstFreeLocal(Restrict(e, roots).pods.Keys, e.pods.Keys, c, (if c in e.counters then e.counters[c] else 0) + 1);
  }

  lemma KeptReplicas(e: Env, roots: set<Uid>)
    requires Loose(e)
    ensures NewCounters(Restrict(e, roots)) == KeptOf(NewCounters(e), roots)
    ensures NewReplicas(Restrict(e, roots)) == KeptOf(NewReplicas(e), roots)
  {
    hide ReplicaUids, NewReplicas, NewCounters, NextNumber, Owns, Loose;
    forall c | c in e.ctrls && Keeps(roots, c)
      ensures (c in Needy(Restrict(e, roots)) <==> c in Needy(e)) && NextNumber(Restrict(e, roots), c) == NextNumber(e, c)
    {
      KeptNeedy(e, roots, c);
    }
    var n := Restrict(e, roots);
    NeedyCounters(n, e, roots);
    SameReplicas(n, e, roots);
    SameReplicaPods(n, e, roots);
  }

  lemma NeedyCounters(n: Env, e: Env, roots: set<Uid>)
    requires n == Restrict(e, roots)
    requires forall c :: c in n.ctrls ==> (c in Needy(n) <==> c in Needy(e)) && NextNumber(n, c) == NextNumber(e, c)
    ensures NewCounters(n) == KeptOf(NewCounters(e), roots)
  {
    hide NextNumber, Owns;
    assert forall c :: c in NewCounters(n) <==> c in KeptOf(NewCounters(e), roots);
  }

  lemma SameReplicas(n: Env, e: Env, roots: set<Uid>)
    requires forall c :: c in Needy(n) ==> c in Needy(e) && Keeps(roots, c)
    requires forall c :: c in Needy(e) && Keeps(roots, c) ==> c in Needy(n)
    requires forall c :: c in Needy(n) ==> NextNumber(n, c) == NextNumber(e, c)
    ensures forall u :: u in ReplicaUids(n) <==> u in ReplicaUids(e) && Keeps(roots, u)
  {
  }

  lemma SameReplicaPods(n: Env, e: Env, roots: set<Uid>)
    requires n == Restrict(e, roots)
    requires forall u :: u in ReplicaUids(n) <==> u in ReplicaUids(e) && Keeps(roots, u)
    ensures NewReplicas(n) == KeptOf(NewReplicas(e), roots)
  {
    hide NextNumber, Owns, ReplicaOf;
    assert forall u :: u in ReplicaUids(n) ==> u.owner in n.ctrls && n.ctrls[u.owner] == e.ctrls[u.owner];
  }

  lemma KeptUnion<V>(a: map<Uid, V>, b: map<Uid, V>, roots: set<Uid>)
    ensures KeptOf(a + b, roots) == KeptOf(a, roots) + KeptOf(b, roots)
  {
  }

  /** Reconciliation treats each controller the same whatever else the attacker created. */
  lemma RestrictReconcile(e: Env, roots: set<Uid>)
    requires Loose(e)
    ensures Restrict(Reconcile(e), roots) == Reconcile(Restrict(e, roots))
  {
    KeptReplicas(e, roots);
    KeptUnion(e.pods, NewReplicas(e), roots);
    KeptUnion(e.counters, NewCounters(e), roots);
  }

  lemma NativeReconcile(e: Env)
    requires Loose(e)
    ensures Native(Reconcile(e)) == Reconcile(Native(e))
  {
    hide Native, Restrict, Reconcile, Loose;
    NativeIsRestriction(e);
    NativeIsRestriction(Reconcile(e));
    RestrictReconcile(e, {});
  }

  lemma KeptMinus<V>(m: map<Uid, V>, roots: set<Uid>, gone: set<Uid>)
    ensures KeptOf(m - gone, roots) == KeptOf(m, roots) - gone
  {
  }

  lemma KeptDeletePods(e: Env, roots: set<Uid>, a: Account, keep: set<Uid>)
    ensures Restrict(Defend(e, DeletePodsExcept(a, keep)), roots) == Defend(Restrict(e, roots), DeletePodsExcept(a, keep))
  {
    hide Keeps;
    assert Restrict(Defend(e, DeletePodsExcept(a, keep)), roots).pods == Defend(Restrict(e, roots), DeletePodsExcept(a, keep)).pods;
  }

  /** Pods left when the controllers in `gone` go. */
  function NotOwnedBy(pods: map<Uid, Pod>, gone: set<Uid>): map<Uid, Pod> {
    map u | u in pods && !(pods[u].owner.Some? && pods[u].owner.value in gone) :: pods[u]
  }

  lemma KeptNotOwned(e: Env, roots: set<Uid>, gone: set<Uid>, some: set<Uid>)
    requires Loose(e)
    requires forall c :: c in some <==> c in gone && Keeps(roots, c)
    ensures KeptOf(NotOwnedBy(e.pods, gone), roots) == NotOwnedBy(KeptOf(e.pods, roots), some)
  {
    hide Loose, Keeps;
    forall u | u in e.pods && e.pods[u].owner.Some?
      ensures Keeps(roots, u) <==> Keeps(roots, e.pods[u].owner.value)
    {
      OwnerKept(e, roots, u);
    }
  }

  lemma KeptDeleteController(e: Env, roots: set<Uid>, uid: Uid)
    requires Loose(e) && !Created(uid)
    ensures Restrict(Defend(e, DeleteController(uid)), roots) == Defend(Restrict(e, roots), DeleteController(uid))
  {
    hide Loose;
    KeptMinus(e.ctrls, roots, {uid});
    KeptNotOwned(e, roots, {uid}, {uid});
    assert Defend(e, DeleteController(uid)).pods == NotOwnedBy(e.pods, {uid});
    assert Defend(Restrict(e, roots), DeleteController(uid)).pods == NotOwnedBy(Restrict(e, roots).pods, {uid});
  }

  function Victims(e: Env, a: Account, keep: set<Uid>): set<Uid> {
    set c | c in e.ctrls && e.ctrls[c].Acct() == a && c !in keep
  }

  lemma DeletesVictims(e: Env, a: Account, keep: set<Uid>)
    ensures Defend(e, DeleteControllersExcept(a, keep))
         == e.(ctrls := e.ctrls - Victims(e, a, keep), pods := NotOwnedBy(e.pods, Victims(e, a, keep)))
  {
  }

  lemma KeptVictims(e: Env, roots: set<Uid>, a: Account, keep: set<Uid>)
    ensures forall c :: c in Victims(Restrict(e, roots), a, keep) <==> c in Victims(e, a, keep) && Keeps(roots, c)
    ensures KeptOf(e.ctrls - Victims(e, a, keep), roots) == Restrict(e, roots).ctrls - Victims(Restrict(e, roots), a, keep)
  {
    hide Keeps;
  }

  lemma KeptDeleteControllers(e: Env, roots: set<Uid>, a: Account, keep: set<Uid>)
    requires Loose(e)
    ensures Restrict(Defend(e, DeleteControllersExcept(a, keep)), roots) == Defend(Restrict(e, roots), DeleteControllersExcept(a, keep))
  {
    hide Loose, Defend, Victims, NotOwnedBy, KeptOf;
    DeletesVictims(e, a, keep);
    DeletesVictims(Restrict(e, roots), a, keep);
    KeptVictims(e, roots, a, keep);
    KeptNotOwned(e, roots, Victims(e, a, keep), Victims(Restrict(e, roots), a, keep));
  }

  /** The defender's actions treat each object the same whatever else the attacker created. */
  lemma RestrictDefend(e: Env, roots: set<Uid>, a: Action)
    requires Loose(e) && NativeAction(a)
    ensures Restrict(Defend(e, a), roots) == Defend(Restrict(e, roots), a)
  {
    hide Loose, Keeps;
    match a {
      case DeletePod(uid) => KeptMinus(e.pods, roots, {uid});
      case DeleteController(uid) => KeptDeleteController(e, roots, uid);
      case DeletePodsExcept(acct, keep) => KeptDeletePods(e, roots, acct, keep);
      case DeleteControllersExcept(acct, keep) => KeptDeleteControllers(e, roots, acct, keep);
      case _ =>
    }
  }

  lemma NativeDefend(e: Env, a: Action)
    requires Loose(e) && NativeAction(a)
    ensures Native(Defend(e, a)) == Defend(Native(e), a)
  {
    hide Native, Restrict, Defend, Loose;
    NativeIsRestriction(e);
    NativeIsRestriction(Defend(e, a));
    RestrictDefend(e, {}, a);
  }

  // ---------------------------------------------------------------- the invariant

  ghost predicate HasCreated(e: Env) {
    exists c :: c in e.ctrls && Created(c)
  }

  /** What the native part must be when the phase started from the native environment `base`:
      creating a controller also reconciles the others. */
  ghost function NativeAt(e: Env, base: Env): Env {
    if HasCreated(e) then Reconcile(base) else base
  }

  ghost predicate EnvInv(base: Env, e: Env) {
    Shaped(e) && Native(e) == NativeAt(e, base)
  }

  ghost predicate Inv(base: Env, w: World) { EnvInv(base, w.env) }

  lemma NewPodKeepsInv(base: Env, e: Env, a: Account, uid: Uid)
    requires EnvInv(base, e)
    requires Standalone(uid) && uid.account == a && uid !in e.pods
    ensures EnvInv(base, WithPod(e, a, uid))
  {
    hide Reconcile, Text;
    var r := WithPod(e, a, uid);
    forall c | c in r.ctrls && Created(c)
      ensures Owns(r.pods, c)
    {
      var u :| u in e.pods && e.pods[u].owner == Some(c);
      assert u in r.pods && r.pods[u].owner == Some(c);
    }
    forall u | u in r.pods && Created(u)
      ensures ShapedPod(r, u)
    {
      if u != uid { assert ShapedPod(e, u); }
    }
    assert Native(r).pods == Native(e).pods;
  }

  lemma NewCtrlKeepsInv(base: Env, e: Env, a: Account, uid: Uid, z: bool)
    requires EnvInv(base, e)
    requires CreatedDeploy(uid) && uid.account == a && uid !in e.ctrls
    ensures EnvInv(base, WithCtrl(e, a, uid, z))
  {
    var m := Unreconciled(e, a, uid, z);
    UnreconciledShape(e, a, uid, z);
    ReconcileShapes(m);
    NativeReconcile(m);
    ReconcileTwice(base);
    assert uid in Reconcile(m).ctrls;
  }

  lemma UnreconciledShape(e: Env, a: Account, uid: Uid, z: bool)
    requires Shaped(e) && CreatedDeploy(uid) && uid.account == a && uid !in e.ctrls
    ensures Loose(Unreconciled(e, a, uid, z)) && Native(Unreconciled(e, a, uid, z)) == Native(e)
  {
    var m := Unreconciled(e, a, uid, z);
    forall u | u in m.pods && Created(u)
      ensures ShapedPod(m, u)
    {
      assert ShapedPod(e, u);
    }
    assert NativeOf(m.ctrls) == NativeOf(e.ctrls);
    assert NativeOf(m.counters) == NativeOf(e.counters);
  }

  lemma StepKeepsInv(st: Static, rule: UseRule, base: Env, w: World, act: Act)
    requires st.api != [] && Inv(base, w) && Enabled(st, rule, w, act)
    ensures Inv(base, Do(st, w, act))
  {
    match act {
      case NewPod(_, a, uid) => NewPodKeepsInv(base, w.env, a, uid);
      case NewCtrl(_, a, uid, z) => NewCtrlKeepsInv(base, w.env, a, uid, z);
      case _ =>
    }
  }

  lemma {:induction false} ActsKeepInv(st: Static, rule: UseRule, base: Env, w: World, acts: seq<Act>)
    requires st.api != [] && Inv(base, w) && RunActs(st, rule, w, acts).Some?
    ensures Inv(base, RunActs(st, rule, w, acts).value)
  {
    if acts != [] {
      ActsKeepInv(st, rule, base, w, acts[..|acts| - 1]);
      StepKeepsInv(st, rule, base, RunActs(st, rule, w, acts[..|acts| - 1]).value, acts[|acts| - 1]);
    }
  }

  /** The attack-free environment after one more defender action. */
  function NextBase(base: Env, a: Action): Env { Reconcile(Defend(base, a)) }

  lemma DefendKeepsInv(base: Env, w: World, a: Action)
    requires Inv(base, w) && NativeAction(a) && Reconciled(base)
    ensures Inv(NextBase(base, a), DefendWorld(w, a))
    ensures Reconciled(NextBase(base, a))
    ensures Native(DefendWorld(w, a).env) == NextBase(base, a)
  {
    ReconcileIdempotent(base);
    DefendKeepsShape(w.env, a);
    ReconcileShapes(Defend(w.env, a));
    NativeDefend(w.env, a);
    NativeReconcile(Defend(w.env, a));
    ReconcileTwice(Defend(base, a));
    ReconcileServesAll(Defend(base, a));
  }
}
