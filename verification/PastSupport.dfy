/** The replay's history environment holds everything the witness uses of the engine's. */
module PastSupport {
  import opened Model
  import opened Semantics
  import opened Attack
  import opened Rules
  import opened Shape
  import opened Fixpoint
  import opened Case
  import opened Interleavings
  import opened Homes
  import opened Exactness
  import opened Creations
  import opened Replay
  import opened Witnesses
  import opened Testimony

  /** `r` has the objects of `e` that go back to `roots`, as far as any check looks at them. */
  ghost predicate Supports(e: Env, roots: set<Uid>, r: Env) {
    && r.time == e.time && r.sas == e.sas && r.bindings == e.bindings && r.secrets == e.secrets && r.services == e.services
    && forall u :: u in e.pods && Keeps(roots, u) ==> u in r.pods && r.pods[u].Acct() == e.pods[u].Acct() && r.pods[u].owner == e.pods[u].owner
  }

  lemma RestrictionSupports(e: Env, roots: set<Uid>)
    ensures Supports(e, roots, Restrict(e, roots))
  {
    hide Keeps;
  }

  /** Historical Pods are gone from the inventory and no controller there could have numbered them. */
  ghost predicate HistoryApart(inp: Input) {
    && OneHistory(inp)
    && forall h :: h in inp.historical ==> h.uid !in inp.env.pods && (h.uid.Replica? ==> h.uid.owner !in inp.env.ctrls)
  }

  // ---------------------------------------------------------------- the inventory part

  lemma SameNeeds(inp: Input, view: Perspective, c: Uid)
    requires HistoryApart(inp) && c in inp.env.ctrls
    ensures Owns(HistoryEnv(inp, view, Full).pods, c) <==> Owns(inp.env.pods, c)
    ensures NextNumber(HistoryEnv(inp, view, Full), c) == NextNumber(inp.env, c)
  {
    var e := HistoryEnv(inp, view, Full);
    if Owns(inp.env.pods, c) {
      var u :| u in inp.env.pods && inp.env.pods[u].owner == Some(c);
      assert u in e.pods && e.pods[u].owner == Some(c);
    }
    FirstFreeLocal(e.pods.Keys, inp.env.pods.Keys, c, (if c in inp.env.counters then inp.env.counters[c] else 0) + 1);
  }

  lemma HistoryKeys(inp: Input, view: Perspective, u: Uid)
    requires OneHistory(inp)
    ensures var e := HistoryEnv(inp, view, Full);
      && e.ctrls == inp.env.ctrls && e.counters == inp.env.counters
      && (u in e.pods <==> u in inp.env.pods || u in HistoricalPods(inp, view, Full))
      && (u in inp.env.pods ==> e.pods[u] == inp.env.pods[u])
      && (u in HistoricalPods(inp, view, Full) && u !in inp.env.pods ==> u in AllRows(inp) && e.pods[u] == HistoricalPod(u, AllRows(inp)[u]))
  {
    if u in HistoricalPods(inp, view, Full) {
      var h :| h in inp.historical && KeptHistorical(h, view, Full) && h.uid == u;
      SameFirstClaim(inp.historical, view, Full, u);
    }
  }

  lemma NewReplicaThere(e: Env, c: Uid)
    requires c in Needy(e)
    ensures var u := Replica(c, NextNumber(e, c)); u in Reconcile(e).pods && Reconcile(e).pods[u] == ReplicaOf(e.ctrls[c], c, u.k)
  {
    assert Replica(c, NextNumber(e, c)) in ReplicaUids(e);
  }

  lemma NewReplicaOnly(e: Env, u: Uid)
    requires u in Reconcile(e).pods && u !in e.pods
    ensures u.Replica? && u.owner in Needy(e) && u == Replica(u.owner, NextNumber(e, u.owner)) && Reconcile(e).pods[u] == ReplicaOf(e.ctrls[u.owner], u.owner, u.k)
  {
    assert u in ReplicaUids(e);
    var c :| c in Needy(e) && u == Replica(c, NextNumber(e, c));
  }

  function PastEnv(inp: Input): Env { WithHistory(inp, Reconcile(inp.env)) }

  lemma PastPods(inp: Input, u: Uid)
    ensures u in Reconcile(inp.env).pods && u !in AllRows(inp) ==> u in PastEnv(inp).pods && PastEnv(inp).pods[u] == Reconcile(inp.env).pods[u]
    ensures u in AllRows(inp) ==> u in PastEnv(inp).pods && PastEnv(inp).pods[u] == HistoricalPod(u, AllRows(inp)[u])
    ensures u in PastEnv(inp).pods ==> u in Reconcile(inp.env).pods || u in AllRows(inp)
  {
    hide Reconcile;
  }

  /** Whatever the inventory part of the history environment becomes, the replay has it. */
  lemma InventoryPart(inp: Input, view: Perspective, u: Uid)
    requires HistoryApart(inp) && u in Reconcile(HistoryEnv(inp, view, Full)).pods
    ensures u in PastEnv(inp).pods && PastEnv(inp).pods[u] == Reconcile(HistoryEnv(inp, view, Full)).pods[u]
  {
    hide Reconcile, HistoryEnv, PastEnv, HistoricalPods, NextNumber, Owns, ReplicaOf;
    var e := HistoryEnv(inp, view, Full);
    HistoryKeys(inp, view, u);
    ReconcileKeepsPods(e);
    ReconcileKeepsPods(inp.env);
    PastPods(inp, u);
    if u !in e.pods {
      NewReplicaOnly(e, u);
      SameNeeds(inp, view, u.owner);
      NewReplicaThere(inp.env, u.owner);
    }
  }

  // ---------------------------------------------------------------- the created part

  /** Within the history phase a controller's only replica is number 0. */
  ghost predicate ZeroReplicas(e: Env) {
    forall u :: u in e.pods && Created(u) && u.Replica? ==> u.k == 0
  }

  lemma CtrlKeepsZero(e: Env, a: Account, i: int)
    requires Shaped(e) && ZeroReplicas(e) && ModelDeploy(a, i) !in e.ctrls
    ensures ZeroReplicas(WithCtrl(e, a, ModelDeploy(a, i), true))
  {
    hide Reconcile, NextNumber, Text;
    var c := ModelDeploy(a, i);
    var m := Unreconciled(e, a, c, true);
    ReconcileKeepsPods(m);
    forall u | u in Reconcile(m).pods && Created(u) && u.Replica?
      ensures u.k == 0
    {
      if u !in e.pods {
        NewReplicaOnly(m, u);
        OnlyNewNeedy(e, a, i, u.owner);
        NoStrayReplica(e, c, 0);
        FirstIsZero(m, c);
      }
    }
  }

  lemma OnlyNewNeedy(e: Env, a: Account, i: int, c: Uid)
    requires Shaped(e) && Created(c) && c in Needy(Unreconciled(e, a, ModelDeploy(a, i), true))
    ensures c == ModelDeploy(a, i)
  {
    hide Text;
  }

  lemma FirstIsZero(m: Env, c: Uid)
    requires c in m.counters && m.counters[c] == -1 && Replica(c, 0) !in m.pods
    ensures NextNumber(m, c) == 0
  {
  }

  lemma {:induction false} FiringsKeepZero(ctx: Ctx, base: Env, s: State, fs: seq<Firing>)
    requires ctx.Valid() && Good(ctx.interval, s) && EnvInv(base, s.env) && FireAll(ctx, s, fs).Some?
    requires ZeroReplicas(s.env)
    ensures ZeroReplicas(FireAll(ctx, s, fs).value.env)
  {
    hide Good, EnvInv, Fire, Ready, WithCtrl, WithPod, Origin.ReplicaConsistent;
    if fs != [] {
      FiringsKeepZero(ctx, base, s, fs[..|fs| - 1]);
      var m := FireAll(ctx, s, fs[..|fs| - 1]).value;
      var f := fs[|fs| - 1];
      FiringsGrow(ctx, base, s, fs[..|fs| - 1]);
      FiringEnv(ctx, m, f);
      EnvInvShaped(base, m.env);
      if f.FirePod? { PodKeepsZero(m.env, f.account, ctx.interval); }
      if f.FireCtrl? { CtrlKeepsZero(m.env, f.account, ctx.interval); }
    }
  }

  lemma EnvInvShaped(base: Env, e: Env)
    requires EnvInv(base, e)
    ensures Shaped(e)
  {
  }

  lemma PodKeepsZero(e: Env, a: Account, i: int)
    requires ZeroReplicas(e)
    ensures ZeroReplicas(WithPod(e, a, ModelPod(a, i)))
  {
    hide Text;
  }

  // ---------------------------------------------------------------- support

  lemma PastShaped(inp: Input)
    requires WellFormed(inp) && HistoryApart(inp)
    ensures Shaped(PastEnv(inp)) && Reconciled(PastEnv(inp))
    ensures forall u :: u in PastEnv(inp).pods ==> !Created(u)
    ensures forall c :: c in PastEnv(inp).ctrls ==> !Created(c)
  {
    hide Reconcile, OriginOf, EnvHome, Text, Owns, PastEnv, EnvInv;
    MainEnvGood(inp);
    SameCtrls(inp);
    ReconcileOnlyPods(inp.env);
    var p := PastEnv(inp);
    PastCtrls(inp);
    forall u | u in p.pods
      ensures !Created(u) && (p.pods[u].owner.Some? ==> !Created(p.pods[u].owner.value))
    {
      PastPods(inp, u);
      MainOwners(inp, u);
    }
    forall c | c in p.ctrls
      ensures Owns(p.pods, c)
    {
      PastOwns(inp, c);
    }
  }

  lemma PastCtrls(inp: Input)
    ensures PastEnv(inp).ctrls == Reconcile(inp.env).ctrls
  {
    hide Reconcile;
  }

  lemma MainOwners(inp: Input, u: Uid)
    requires WellFormed(inp)
    ensures u in Reconcile(inp.env).pods && Reconcile(inp.env).pods[u].owner.Some? ==> !Created(Reconcile(inp.env).pods[u].owner.value)
    ensures u in AllRows(inp) ==> !Created(u) && HistoricalPod(u, AllRows(inp)[u]).owner == None
  {
    hide Reconcile;
    ReconcileKeepsPods(inp.env);
  }

  lemma PastOwns(inp: Input, c: Uid)
    requires WellFormed(inp) && HistoryApart(inp) && c in Reconcile(inp.env).ctrls && Reconciled(Reconcile(inp.env))
    ensures Owns(PastEnv(inp).pods, c)
  {
    hide Reconcile, PastEnv;
    ReconcileKeepsPods(inp.env);
    ReconcileOnlyPods(inp.env);
    var u :| u in Reconcile(inp.env).pods && Reconcile(inp.env).pods[u].owner == Some(c);
    PastPods(inp, u);
    assert u !in AllRows(inp);
  }

  /** What the history phase ends in, as far as the replay needs it. */
  lemma HistoryEnds(inp: Input, view: Perspective, h: State)
    requires WellFormed(inp) && Saturates(Ctx(inp.st, Window(inp.historyStart), -1), HistoryStart(inp, view, Full), h)
    ensures Good(-1, h) && EnvInv(HistoryEnv(inp, view, Full), h.env) && ZeroReplicas(h.env)
  {
    hide Good, EnvInv, Closed, HistoryStart, HistoryEnv, OriginOf;
    var ctx := Ctx(inp.st, Window(inp.historyStart), -1);
    var s := HistoryStart(inp, view, Full);
    HistoryGood(inp, view, Full);
    HistorySame(inp, view, Full);
    HistoryEnvGood(inp, view, Full);
    SaturationGood(ctx, HistoryEnv(inp, view, Full), s, h);
    var fs :| FireAll(ctx, s, fs) == Some(h);
    FiringsKeepZero(ctx, HistoryEnv(inp, view, Full), s, fs);
  }

  lemma NativeSupported(inp: Input, view: Perspective, e: Env, u: Uid)
    requires HistoryApart(inp) && EnvInv(HistoryEnv(inp, view, Full), e) && u in e.pods && !Created(u)
    ensures u in PastEnv(inp).pods && PastEnv(inp).pods[u] == e.pods[u]
  {
    hide Reconcile, HistoryEnv, PastEnv, Shaped;
    var base := HistoryEnv(inp, view, Full);
    assert u in Native(e).pods && Native(e).pods[u] == e.pods[u];
    ReconcileKeepsPods(base);
    InventoryPart(inp, view, u);
  }

  /** A created Pod the witness uses is created again by the replay. */
  lemma CreatedSupported(e: Env, h: State, steps: seq<Step>, r: Env, u: Uid)
    requires Good(-1, h) && e == h.env && ZeroReplicas(e) && u in e.pods && Created(u) && Keeps(Roots(steps), u)
    requires r == Grown(r, RootsAt(steps, -1)) && forall v :: v in Roots(steps) ==> v.interval >= -1
    ensures u in r.pods && r.pods[u].Acct() == e.pods[u].Acct() && r.pods[u].owner == e.pods[u].owner
  {
    hide Text, EnvHome, CredsKnown, PodUids, Roots;
    assert ShapedPod(e, u);
    RootsAreModels(steps);
    var v := Root(u);
    var made := RootsAt(steps, -1);
    if u.Replica? { assert Root(u.owner) == u.owner; }
    RootInPast(h, u);
    assert v in made;
    InPodUids(made, u);
    PodOfShape(made, u);
  }

  lemma RootInPast(h: State, u: Uid)
    requires Shaped(h.env) && ModelsKnown(-1, h) && OnlyModels(h.env) && u in h.env.pods && Created(u)
    ensures ModelRoot(Root(u)) && Root(u).interval <= -1
  {
    assert ShapedPod(h.env, u);
    if u.Replica? {
      var c := u.owner;
      assert Root(c) == c;
      assert c == ModelDeploy(c.account, c.interval);
    } else {
      assert u == ModelPod(u.account, u.interval);
    }
  }

  lemma HistoryParts(inp: Input, view: Perspective, e: Env)
    requires WellFormed(inp) && EnvInv(HistoryEnv(inp, view, Full), e)
    ensures var r := PastEnv(inp); r.time == e.time && r.sas == e.sas && r.bindings == e.bindings && r.secrets == e.secrets && r.services == e.services
    ensures e.time == inp.env.time
  {
    hide Shaped;
    assert Native(e).time == e.time && Native(e).sas == e.sas && Native(e).bindings == e.bindings && Native(e).secrets == e.secrets && Native(e).services == e.services;
  }

  /** The replay's history environment supports the engine's. */
  lemma HistorySupported(inp: Input, view: Perspective, h: State, steps: seq<Step>)
    requires WellFormed(inp) && HistoryApart(inp) && Saturates(Ctx(inp.st, Window(inp.historyStart), -1), HistoryStart(inp, view, Full), h)
    requires Distinct(steps) && forall v :: v in Roots(steps) ==> v.interval >= -1
    ensures Supports(h.env, Roots(steps), ReplayHistory(inp, steps)) && Shaped(h.env) && h.env.time == inp.env.time
  {
    hide Saturates, EnvInv, OriginOf, Grown, PastEnv, HistoryEnv, HistoryStart, Roots, Keeps, Shaped, Reconciled, Good, ZeroReplicas;
    HistoryEnds(inp, view, h);
    EnvInvShaped(HistoryEnv(inp, view, Full), h.env);
    HistoryParts(inp, view, h.env);
    PastShaped(inp);
    RootsAreModels(steps);
    var made := RootsAt(steps, -1);
    FreshPast(inp, steps);
    DeclaredGrown(PastEnv(inp), steps, -1);
    var r := Grown(PastEnv(inp), made);
    assert ReplayHistory(inp, steps) == r by { PastIs(inp); }
    forall u | u in h.env.pods && Keeps(Roots(steps), u)
      ensures u in r.pods && r.pods[u].Acct() == h.env.pods[u].Acct() && r.pods[u].owner == h.env.pods[u].owner
    {
      if Created(u) {
        GrownAgain(PastEnv(inp), made);
        CreatedSupported(h.env, h, steps, r, u);
      } else {
        NativeSupported(inp, view, h.env, u);
        OldPodsStay(PastEnv(inp), made, u);
      }
    }
    GrownParts(PastEnv(inp), made);
  }

  lemma PastIs(inp: Input)
    ensures PastEnv(inp) == WithHistory(inp, Reconcile(inp.env))
  {
  }

  lemma GrownParts(e: Env, made: set<Uid>)
    ensures var r := Grown(e, made); r.time == e.time && r.sas == e.sas && r.bindings == e.bindings && r.secrets == e.secrets && r.services == e.services
  {
  }

  lemma GrownAgain(e: Env, made: set<Uid>)
    ensures Grown(Grown(e, made), made) == Grown(e, made)
  {
  }

  lemma OldPodsStay(e: Env, made: set<Uid>, u: Uid)
    requires Shaped(e) && Fresh(e, made) && u in e.pods
    ensures u in Grown(e, made).pods && Grown(e, made).pods[u] == e.pods[u]
  {
    KeepsOldPods(e, made, u);
  }

  lemma FreshPast(inp: Input, steps: seq<Step>)
    requires forall u :: u in PastEnv(inp).pods ==> !Created(u)
    requires forall c :: c in PastEnv(inp).ctrls ==> !Created(c)
    ensures Fresh(PastEnv(inp), RootsAt(steps, -1))
  {
    hide PastEnv, Roots;
  }
}
