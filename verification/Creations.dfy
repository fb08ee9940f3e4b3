/** What a whole interval of creations does to an environment: the order is irrelevant, and
    leaving some of them out leaves exactly their objects out. */
module Creations {
  import opened Model
  import opened Semantics
  import opened Attack
  import opened Rules
  import opened Shape

  predicate ModelRoot(u: Uid) { u.ModelPod? || u.ModelDeploy? }

  /** The engine's effect of creating one object. */
  function AddCreated(e: Env, u: Uid): Env {
    match u
    case ModelPod(a, _) => WithPod(e, a, u)
    case ModelDeploy(a, _) => WithCtrl(e, a, u, true)
    case _ => e
  }

  function CtrlOf(c: Uid): Controller { Controller(Class(c).ns, Text(c), Class(c).name, []) }

  function PodOf(u: Uid): Pod {
    if u.Replica? then ReplicaOf(CtrlOf(u.owner), u.owner, 0) else Pod(Class(u).ns, Text(u), Class(u).name, [], None)
  }

  function CtrlUids(made: set<Uid>): set<Uid> { set c | c in made && c.ModelDeploy? }
  function FirstReplicas(made: set<Uid>): set<Uid> { set c | c in CtrlUids(made) :: Replica(c, 0) }
  function PodUids(made: set<Uid>): set<Uid> { (set u | u in made && u.ModelPod?) + FirstReplicas(made) }

  function PodTable(made: set<Uid>): map<Uid, Pod> { map u | u in PodUids(made) :: PodOf(u) }
  function CtrlTable(made: set<Uid>): map<Uid, Controller> { map c | c in CtrlUids(made) :: CtrlOf(c) }
  function CounterTable(made: set<Uid>): map<Uid, int> { map c | c in CtrlUids(made) :: 0 }

  /** `e` with the objects in `made` created, each controller with its first replica. */
  function Grown(e: Env, made: set<Uid>): Env {
    e.(pods := e.pods + PodTable(made), ctrls := e.ctrls + CtrlTable(made), counters := e.counters + CounterTable(made))
  }

  ghost predicate Fresh(e: Env, made: set<Uid>) {
    forall u :: u in made ==> ModelRoot(u) && u !in e.pods && u !in e.ctrls
  }

  lemma GrownNothing(e: Env)
    ensures Grown(e, {}) == e
  {
    assert PodUids({}) == {} && CtrlUids({}) == {};
    assert e.pods + PodTable({}) == e.pods;
    assert e.ctrls + CtrlTable({}) == e.ctrls;
    assert e.counters + CounterTable({}) == e.counters;
  }

  lemma InPodUids(made: set<Uid>, u: Uid)
    ensures u in PodUids(made) <==> (u.ModelPod? && u in made) || (u.Replica? && u.k == 0 && u.owner.ModelDeploy? && u.owner in made)
  {
    if u.Replica? && u.k == 0 && u.owner in CtrlUids(made) { assert Replica(u.owner, 0) in FirstReplicas(made); }
  }

  /** A created controller that is not there has no Pods. */
  lemma NoStrayReplica(e: Env, c: Uid, k: int)
    requires Loose(e) && CreatedDeploy(c) && c !in e.ctrls
    ensures Replica(c, k) !in e.pods
  {
    assert Created(Replica(c, k));
    assert Replica(c, k) in e.pods ==> ShapedPod(e, Replica(c, k));
  }

  lemma NoStrayOwned(e: Env, c: Uid)
    requires Loose(e) && CreatedDeploy(c) && c !in e.ctrls
    ensures !Owns(e.pods, c)
  {
    forall u | u in e.pods
      ensures e.pods[u].owner != Some(c)
    {
      if Created(u) { assert ShapedPod(e, u); }
    }
  }

  lemma PodOfShape(made: set<Uid>, u: Uid)
    requires u in PodUids(made) && forall v :: v in made ==> ModelRoot(v)
    ensures Created(u) && (Standalone(u) || (u.Replica? && CreatedDeploy(u.owner)))
    ensures PodOf(u).Acct() == Class(u) && PodOf(u).audiences == []
    ensures Standalone(u) ==> PodOf(u).owner == None
    ensures u.Replica? ==> PodOf(u).owner == Some(u.owner) && u.owner in CtrlUids(made)
  {
    InPodUids(made, u);
    if u.Replica? { assert Class(u.owner) == u.owner.account; }
  }

  lemma GrownPodShaped(e: Env, made: set<Uid>, u: Uid)
    requires Loose(e) && Fresh(e, made) && u in Grown(e, made).pods && Created(u)
    ensures ShapedPod(Grown(e, made), u)
  {
    hide Text, PodOf;
    if u in PodUids(made) { PodOfShape(made, u); } else { assert ShapedPod(e, u); }
  }

  lemma GrownShaped(e: Env, made: set<Uid>)
    requires Shaped(e) && Fresh(e, made)
    ensures Shaped(Grown(e, made))
  {
    hide Text, PodOf, PodUids, ShapedPod, Owns;
    var g := Grown(e, made);
    forall u | u in g.pods && Created(u)
      ensures ShapedPod(g, u)
    {
      GrownPodShaped(e, made, u);
    }
    forall c | c in g.ctrls && Created(c)
      ensures Owns(g.pods, c)
    {
      GrownOwns(e, made, c);
    }
    GrownNatives(e, made);
  }

  lemma GrownNatives(e: Env, made: set<Uid>)
    requires Loose(e) && Fresh(e, made)
    ensures forall u :: u in Grown(e, made).pods && !Created(u) ==> u in e.pods && Grown(e, made).pods[u] == e.pods[u]
  {
    forall u | u in PodUids(made)
      ensures Created(u)
    {
      InPodUids(made, u);
    }
  }

  lemma GrownOwns(e: Env, made: set<Uid>, c: Uid)
    requires Fresh(e, made) && ((c in made && c.ModelDeploy?) || Owns(e.pods, c))
    requires Shaped(e)
    ensures Owns(Grown(e, made).pods, c)
  {
    hide Text;
    var g := Grown(e, made);
    if c in made && c.ModelDeploy? {
      InPodUids(made, Replica(c, 0));
      assert g.pods[Replica(c, 0)].owner == Some(c);
    } else {
      var u :| u in e.pods && e.pods[u].owner == Some(c);
      KeepsOldPods(e, made, u);
    }
  }

  lemma KeepsOldPods(e: Env, made: set<Uid>, u: Uid)
    requires Loose(e) && Fresh(e, made) && u in e.pods
    ensures u in Grown(e, made).pods && Grown(e, made).pods[u] == e.pods[u]
  {
    hide Text, PodOf;
    InPodUids(made, u);
    if u.Replica? && u.owner in made && u.owner.ModelDeploy? { NoStrayReplica(e, u.owner, u.k); }
  }

  lemma GrownReconciled(e: Env, made: set<Uid>)
    requires Shaped(e) && Reconciled(e) && Fresh(e, made)
    ensures Reconciled(Grown(e, made))
  {
    hide Owns;
    forall c | c in Grown(e, made).ctrls
      ensures Owns(Grown(e, made).pods, c)
    {
      GrownOwns(e, made, c);
    }
  }

  /** Creating a controller in a settled environment adds it and its replica number 0, no more. */
  lemma WithCtrlAlone(g: Env, c: Uid)
    requires Shaped(g) && Reconciled(g) && c.ModelDeploy? && c !in g.ctrls
    ensures WithCtrl(g, c.account, c, true) ==
      g.(pods := g.pods[Replica(c, 0) := PodOf(Replica(c, 0))], ctrls := g.ctrls[c := CtrlOf(c)], counters := g.counters[c := 0])
  {
    hide Text, Shaped, Reconciled, Needy, ReplicaUids, FirstFree, NewReplicas, NewCounters;
    var m := Unreconciled(g, c.account, c, true);
    OnlyNeedy(g, c);
    NoReplicaYet(g, c, 0);
    OneReplica(m, c, 0);
    assert m.ctrls[c] == CtrlOf(c);
    assert m.pods + NewReplicas(m) == g.pods[Replica(c, 0) := PodOf(Replica(c, 0))];
    assert m.counters + NewCounters(m) == g.counters[c := 0];
  }

  lemma OneReplica(m: Env, c: Uid, k: int)
    requires Needy(m) == {c} && Replica(c, k) !in m.pods && c in m.counters && m.counters[c] == k - 1
    ensures c in m.ctrls && NewReplicas(m) == map[Replica(c, k) := ReplicaOf(m.ctrls[c], c, k)] && NewCounters(m) == map[c := k]
  {
    hide ReplicaOf, Text;
    assert c in Needy(m);
    assert NextNumber(m, c) == k;
    assert ReplicaUids(m) == {Replica(c, k)};
  }

  lemma OnlyNeedy(g: Env, c: Uid)
    requires Shaped(g) && Reconciled(g) && c.ModelDeploy? && c !in g.ctrls
    ensures Needy(Unreconciled(g, c.account, c, true)) == {c}
  {
    hide Text, Owns, Loose;
    NoStrayOwned(g, c);
  }

  lemma NoReplicaYet(g: Env, c: Uid, k: int)
    requires Shaped(g) && c.ModelDeploy? && c !in g.ctrls
    ensures Replica(c, k) !in g.pods
  {
    NoStrayReplica(g, c, k);
  }

  lemma OneMorePod(made: set<Uid>, u: Uid)
    requires ModelRoot(u)
    ensures PodUids(made + {u}) == PodUids(made) + {if u.ModelPod? then u else Replica(u, 0)}
  {
    hide PodUids;
    forall v
      ensures v in PodUids(made + {u}) <==> v in PodUids(made) || v == (if u.ModelPod? then u else Replica(u, 0))
    {
      InPodUids(made + {u}, v);
      InPodUids(made, v);
    }
  }

  lemma MapPlusOne<K, V>(m: map<K, V>, a: map<K, V>, b: map<K, V>, k: K)
    requires k in b && b.Keys == a.Keys + {k} && forall x :: x in a && x != k ==> b[x] == a[x]
    ensures m + b == (m + a)[k := b[k]]
  {
  }

  lemma GrownOne(e: Env, made: set<Uid>, u: Uid)
    requires ModelRoot(u) && u !in made
    ensures u.ModelPod? ==> Grown(e, made + {u}) == var g := Grown(e, made); g.(pods := g.pods[u := PodOf(u)])
    ensures u.ModelDeploy? ==> Grown(e, made + {u}) == var g := Grown(e, made);
      g.(pods := g.pods[Replica(u, 0) := PodOf(Replica(u, 0))], ctrls := g.ctrls[u := CtrlOf(u)], counters := g.counters[u := 0])
  {
    hide PodUids, CtrlUids, PodOf, CtrlOf;
    var v := if u.ModelPod? then u else Replica(u, 0);
    OneMorePod(made, u);
    OneMoreCtrl(made, u);
    MapPlusOne(e.pods, PodTable(made), PodTable(made + {u}), v);
    if u.ModelDeploy? {
      MapPlusOne(e.ctrls, CtrlTable(made), CtrlTable(made + {u}), u);
      MapPlusOne(e.counters, CounterTable(made), CounterTable(made + {u}), u);
    }
  }

  /** Creations add up to a set: their order does not matter. */
  lemma AddOne(e: Env, made: set<Uid>, u: Uid)
    requires Shaped(e) && Reconciled(e) && Fresh(e, made + {u}) && u !in made
    ensures AddCreated(Grown(e, made), u) == Grown(e, made + {u})
  {
    hide Text, Shaped, Reconciled, Grown, WithCtrl;
    GrownShaped(e, made);
    GrownReconciled(e, made);
    GrownOne(e, made, u);
    if u.ModelDeploy? {
      NotYet(e, made, u);
      WithCtrlAlone(Grown(e, made), u);
    }
  }

  lemma NotYet(e: Env, made: set<Uid>, u: Uid)
    requires u !in e.ctrls && u !in made
    ensures u !in Grown(e, made).ctrls
  {
  }

  lemma OneMoreCtrl(made: set<Uid>, u: Uid)
    requires u !in made
    ensures CtrlUids(made + {u}) == if u.ModelDeploy? then CtrlUids(made) + {u} else CtrlUids(made)
  {
  }

  /** Leaving creations out leaves exactly their objects out. */
  lemma RestrictGrown(e: Env, made: set<Uid>, roots: set<Uid>)
    ensures Restrict(Grown(e, made), roots) == Grown(Restrict(e, roots), made * roots)
  {
    hide Text, PodOf, CtrlOf, PodUids, CtrlUids, Keeps;
    forall u
      ensures u in PodUids(made * roots) <==> u in PodUids(made) && Keeps(roots, u)
    {
      KeptPodUids(made, roots, u);
    }
    forall c
      ensures c in CtrlUids(made * roots) <==> c in CtrlUids(made) && Keeps(roots, c)
    {
      InCtrlUids(made, roots, c);
    }
    assert KeptOf(PodTable(made), roots) == PodTable(made * roots);
    assert KeptOf(CtrlTable(made), roots) == CtrlTable(made * roots);
    assert KeptOf(CounterTable(made), roots) == CounterTable(made * roots);
    KeptUnion(e.pods, PodTable(made), roots);
    KeptUnion(e.ctrls, CtrlTable(made), roots);
    KeptUnion(e.counters, CounterTable(made), roots);
  }

  lemma KeptPodUids(made: set<Uid>, roots: set<Uid>, u: Uid)
    ensures u in PodUids(made * roots) <==> u in PodUids(made) && Keeps(roots, u)
  {
    InPodUids(made, u);
    InPodUids(made * roots, u);
    if u.Replica? && u.owner.ModelDeploy? { assert Root(u.owner) == u.owner && Created(u.owner); }
  }

  lemma InCtrlUids(made: set<Uid>, roots: set<Uid>, c: Uid)
    ensures c in CtrlUids(made * roots) <==> c in CtrlUids(made) && Keeps(roots, c)
  {
  }

  // ---------------------------------------------------------------- an engine interval

  lemma FiringEnv(ctx: Ctx, s: State, f: Firing)
    requires ctx.st.api != [] && Ready(ctx, s, f)
    ensures f.FirePod? ==> Fire(ctx, s, f).env == AddCreated(s.env, ModelPod(f.account, ctx.interval)) && ModelPod(f.account, ctx.interval) !in s.env.pods
    ensures f.FireCtrl? ==> Fire(ctx, s, f).env == AddCreated(s.env, ModelDeploy(f.account, ctx.interval)) && ModelDeploy(f.account, ctx.interval) !in s.env.ctrls
    ensures !f.FirePod? && !f.FireCtrl? ==> Fire(ctx, s, f).env == s.env
  {
    hide WithPod, WithCtrl, Concludes, Derive, MayCreate, Acts;
  }

  /** Within an interval the engine's environment grows by a set of fresh objects of that interval. */
  lemma {:induction false} FiringsGrown(ctx: Ctx, s: State, fs: seq<Firing>) returns (made: set<Uid>)
    requires ctx.st.api != [] && FireAll(ctx, s, fs).Some? && Shaped(s.env) && Reconciled(s.env)
    requires forall u :: ModelRoot(u) && (u in s.env.pods || u in s.env.ctrls) ==> u.interval < ctx.interval
    requires forall u :: u in s.env.pods ==> !u.ModelDeploy?
    requires forall c :: c in s.env.ctrls ==> !c.ModelPod?
    ensures FireAll(ctx, s, fs).value.env == Grown(s.env, made) && Fresh(s.env, made)
    ensures forall u :: u in made ==> u.interval == ctx.interval
  {
    hide Ready, Fire, Shaped, Reconciled, AddCreated, Grown;
    made := {};
    GrownNothing(s.env);
    if fs != [] {
      made := FiringsGrown(ctx, s, fs[..|fs| - 1]);
      var m := FireAll(ctx, s, fs[..|fs| - 1]).value;
      var f := fs[|fs| - 1];
      FiringEnv(ctx, m, f);
      if f.FirePod? || f.FireCtrl? {
        var u := if f.FirePod? then ModelPod(f.account, ctx.interval) else ModelDeploy(f.account, ctx.interval);
        assert u !in made by { AlreadyMade(s.env, made, u); }
        AddOne(s.env, made, u);
        made := made + {u};
      }
    }
  }

  lemma AlreadyMade(e: Env, made: set<Uid>, u: Uid)
    requires ModelRoot(u)
    ensures u in made && u.ModelPod? ==> u in Grown(e, made).pods
    ensures u in made && u.ModelDeploy? ==> u in Grown(e, made).ctrls
  {
  }
}
