/** When no UID ever changes its account: every Pod of every interval runs as the account its UID
    stands for. */
module Homes {
  import opened Model
  import opened Semantics
  import opened Attack
  import opened Rules
  import opened Shape
  import opened Fixpoint
  import opened Case
  import opened Interleavings

  /** What a Pod UID stands for throughout a run: the account its Pod runs as. */
  datatype Origin = Origin(sas: map<Account, string>, pods: map<Uid, Account>, ctrls: map<Uid, Account>)
  {
    function Home(u: Uid): Account {
      if Created(u) then Class(u)
      else if u in pods then pods[u]
      else if u.Replica? && u.owner in ctrls then ctrls[u.owner]
      else Account("", "")
    }

    /** A UID a controller may give to a replacement never belonged to another account's Pod. */
    predicate ReplicaConsistent() {
      forall u :: u in pods && u.Replica? && u.owner in ctrls ==> pods[u] == ctrls[u.owner]
    }
  }

  function OriginOf(inp: Input): Origin {
    var rows := AllRows(inp);
    Origin(inp.env.sas,
      map u | u in inp.env.pods.Keys + rows.Keys :: if u in inp.env.pods then inp.env.pods[u].Acct() else rows[u],
      map c | c in inp.env.ctrls :: inp.env.ctrls[c].Acct())
  }

  /** Well-formed, and no UID ever changes its account. */
  ghost predicate Consistent(inp: Input) { WellFormed(inp) && OriginOf(inp).ReplicaConsistent() }

  ghost predicate EnvHome(o: Origin, e: Env) {
    && (forall u :: u in e.pods ==> e.pods[u].Acct() == o.Home(u))
    && (forall c :: c in e.ctrls && !Created(c) ==> c in o.ctrls && e.ctrls[c].Acct() == o.ctrls[c])
    && (forall a :: a in e.sas ==> a in o.sas && o.sas[a] == e.sas[a])
  }

  // ---------------------------------------------------------------- environments

  lemma WithCtrlHome(o: Origin, e: Env, a: Account, uid: Uid, z: bool)
    requires EnvHome(o, e) && Loose(e) && o.ReplicaConsistent() && CreatedDeploy(uid) && uid.account == a
    ensures EnvHome(o, WithCtrl(e, a, uid, z))
  {
    hide Reconcile, Text, Origin.Home;
    var m := Unreconciled(e, a, uid, z);
    UnreconciledHome(o, e, a, uid, z);
    ReconcileHome(o, m);
    ReconcileOnlyPods(m);
  }

  lemma UnreconciledHome(o: Origin, e: Env, a: Account, uid: Uid, z: bool)
    requires EnvHome(o, e) && Loose(e) && CreatedDeploy(uid) && uid.account == a
    ensures var m := Unreconciled(e, a, uid, z);
      && m.pods == e.pods && m.sas == e.sas
      && forall c :: c in m.ctrls ==> if Created(c) then m.ctrls[c].Acct() == Class(c) else c in o.ctrls && m.ctrls[c].Acct() == o.ctrls[c]
  {
  }

  lemma ReconcileHome(o: Origin, e: Env)
    requires o.ReplicaConsistent()
    requires forall u :: u in e.pods ==> e.pods[u].Acct() == o.Home(u)
    requires forall c :: c in e.ctrls ==> if Created(c) then e.ctrls[c].Acct() == Class(c) else c in o.ctrls && e.ctrls[c].Acct() == o.ctrls[c]
    ensures forall u :: u in Reconcile(e).pods ==> Reconcile(e).pods[u].Acct() == o.Home(u)
  {
    ReconcileKeepsPods(e);
    forall u | u in Reconcile(e).pods && u !in e.pods
      ensures Reconcile(e).pods[u].Acct() == o.Home(u)
    {
      ReplicaHome(o, u.owner, u.k, e.ctrls[u.owner]);
    }
  }

  lemma ReplicaHome(o: Origin, c: Uid, k: int, ctrl: Controller)
    requires o.ReplicaConsistent()
    requires if Created(c) then ctrl.Acct() == Class(c) else c in o.ctrls && ctrl.Acct() == o.ctrls[c]
    ensures o.Home(Replica(c, k)) == ctrl.Acct() == ReplicaOf(ctrl, c, k).Acct()
  {
  }

  lemma WithPodHome(o: Origin, e: Env, a: Account, uid: Uid)
    requires EnvHome(o, e) && Standalone(uid) && uid.account == a
    ensures EnvHome(o, WithPod(e, a, uid))
  {
  }

  lemma NextHome(o: Origin, e: Env, a: Action)
    requires o.ReplicaConsistent() && EnvHome(o, e) && Shaped(e)
    ensures EnvHome(o, Reconcile(Defend(e, a)))
  {
    hide Reconcile, Defend;
    DefendShrinks(e, a);
    ReconcileHome(o, Defend(e, a));
    ReconcileOnlyPods(Defend(e, a));
  }

  // ---------------------------------------------------------------- firings

  lemma FiringHome(o: Origin, ctx: Ctx, s: State, f: Firing)
    requires ctx.Valid() && o.ReplicaConsistent() && EnvHome(o, s.env) && Loose(s.env) && Ready(ctx, s, f)
    ensures EnvHome(o, Fire(ctx, s, f).env)
  {
    hide EnvHome, Loose, WithPod, WithCtrl, Derive, Concludes, Authorized, AdmissionDecision, Accepted;
    match f {
      case FirePod(_, a) => WithPodHome(o, s.env, a, ModelPod(a, ctx.interval));
      case FireCtrl(_, a) => WithCtrlHome(o, s.env, a, ModelDeploy(a, ctx.interval), true);
      case _ =>
    }
  }

  lemma {:induction false} FiringsHome(o: Origin, ctx: Ctx, base: Env, s: State, fs: seq<Firing>)
    requires ctx.Valid() && o.ReplicaConsistent() && Good(ctx.interval, s) && EnvInv(base, s.env) && EnvHome(o, s.env)
    requires FireAll(ctx, s, fs).Some?
    ensures EnvHome(o, FireAll(ctx, s, fs).value.env)
  {
    hide EnvInv, EnvHome, Ready, Fire, CredsKnown, ModelsKnown, Origin.ReplicaConsistent;
    if fs != [] {
      FiringsHome(o, ctx, base, s, fs[..|fs| - 1]);
      FiringsGrow(ctx, base, s, fs[..|fs| - 1]);
      FiringHome(o, ctx, FireAll(ctx, s, fs[..|fs| - 1]).value, fs[|fs| - 1]);
    }
  }

  // ---------------------------------------------------------------- whole runs

  lemma {:induction false} SameFirstClaim(hs: seq<Historical>, view: Perspective, mode: Mode, u: Uid)
    requires forall h, g :: h in hs && g in hs && h.uid == g.uid ==> h.account == g.account
    requires exists h :: h in hs && KeptHistorical(h, view, mode) && h.uid == u
    ensures FirstClaim(hs, view, mode, u) == FirstClaim(hs, ConservativePossible, Full, u)
    ensures exists h :: h in hs && h.uid == u && h.account == FirstClaim(hs, view, mode, u)
  {
    if hs[0].uid != u {
      SameFirstClaim(hs[1..], view, mode, u);
    } else if KeptHistorical(hs[0], view, mode) {
      assert hs[0] in hs;
    } else {
      SameFirstClaim(hs[1..], view, mode, u);
      var h :| h in hs[1..] && h.uid == u && h.account == FirstClaim(hs[1..], view, mode, u);
      assert hs[0] in hs && h in hs;
    }
  }

  lemma HistoryPodHome(inp: Input, view: Perspective, mode: Mode, u: Uid)
    requires WellFormed(inp) && u in HistoryEnv(inp, view, mode).pods
    ensures HistoryEnv(inp, view, mode).pods[u].Acct() == OriginOf(inp).Home(u)
  {
    assert u in inp.env.pods || u in HistoricalPods(inp, view, mode);
    if u !in inp.env.pods {
      var h :| h in inp.historical && KeptHistorical(h, view, mode) && h.uid == u;
      SameFirstClaim(inp.historical, view, mode, u);
      assert u in AllRows(inp);
    }
  }

  lemma HistoryEnvHome(inp: Input, view: Perspective, mode: Mode)
    requires WellFormed(inp)
    ensures EnvHome(OriginOf(inp), HistoryEnv(inp, view, mode))
  {
    hide Origin.Home, FirstRows, AllRows;
    forall u | u in HistoryEnv(inp, view, mode).pods
      ensures HistoryEnv(inp, view, mode).pods[u].Acct() == OriginOf(inp).Home(u)
    {
      HistoryPodHome(inp, view, mode, u);
    }
  }

  lemma InventoryHome(inp: Input)
    requires WellFormed(inp)
    ensures EnvHome(OriginOf(inp), inp.env)
  {
  }

  lemma MainHome(inp: Input)
    requires Consistent(inp)
    ensures EnvHome(OriginOf(inp), Reconcile(inp.env))
  {
    hide OriginOf, Origin.Home, Origin.ReplicaConsistent, Reconcile, Plain;
    InventoryHome(inp);
    InventoryNative(inp);
    ReconcileHome(OriginOf(inp), inp.env);
    ReconcileOnlyPods(inp.env);
  }

  lemma InventoryNative(inp: Input)
    requires WellFormed(inp)
    ensures forall c :: c in inp.env.ctrls ==> !Created(c)
  {
  }

  lemma SaturationHome(inp: Input, ctx: Ctx, base: Env, s: State, t: State)
    requires Consistent(inp) && ctx.Valid() && Good(ctx.interval, s) && EnvInv(base, s.env) && EnvHome(OriginOf(inp), s.env) && Saturates(ctx, s, t)
    ensures EnvHome(OriginOf(inp), t.env)
  {
    hide Good, EnvInv, EnvHome, OriginOf, Plain, Origin.ReplicaConsistent, Closed;
    var fs :| FireAll(ctx, s, fs) == Some(t);
    FiringsHome(OriginOf(inp), ctx, base, s, fs);
  }

  lemma HistoryEndsHome(inp: Input, view: Perspective, mode: Mode, h: State)
    requires Consistent(inp) && Saturates(Ctx(inp.st, HistoryRule(inp, mode), -1), HistoryStart(inp, view, mode), h)
    ensures EnvHome(OriginOf(inp), h.env)
  {
    hide Good, EnvInv, EnvHome, OriginOf, HistoryEnv, InitialState, Plain, Origin.ReplicaConsistent, Saturates;
    ParsedStatic(inp);
    HistoryGood(inp, view, mode);
    HistoryEnvHome(inp, view, mode);
    SaturationHome(inp, Ctx(inp.st, HistoryRule(inp, mode), -1), HistoryEnv(inp, view, mode), HistoryStart(inp, view, mode), h);
  }

  lemma ParsedStatic(inp: Input)
    requires WellFormed(inp)
    ensures inp.st.Valid()
  {
  }

  /** Every Pod of every interval is at home. */
  lemma {:induction false} StageHome(inp: Input, rule: UseRule, start: State, stages: seq<State>, k: nat)
    requires Consistent(inp) && Ladder(inp, rule, start, stages) && k <= |inp.actions|
    requires Good(0, start) && start.env == Reconcile(inp.env)
    ensures EnvHome(OriginOf(inp), stages[k].env)
  {
    hide Good, EnvInv, EnvHome, OriginOf, Plain, Reconcile, Defend, Reconciled, Saturates, Origin.ReplicaConsistent;
    ParsedStatic(inp);
    if k == 0 {
      MainEnvGood(inp);
      BaseZero(inp);
      MainHome(inp);
      SaturationHome(inp, Ctx(inp.st, rule, 0), Base(inp, 0), start, stages[0]);
    } else {
      StageHome(inp, rule, start, stages, k - 1);
      LadderGood(inp, rule, start, stages, k - 1);
      var s, a := stages[k - 1], inp.actions[k - 1];
      NextGoodHere(inp, s, k - 1);
      NextHome(OriginOf(inp), s.env, a);
      assert Saturates(Ctx(inp.st, rule, (k - 1) + 1), NextState(s, a), stages[(k - 1) + 1]);
      SaturationHome(inp, Ctx(inp.st, rule, k), Base(inp, k), NextState(s, a), stages[k]);
    }
  }

  lemma BaseZero(inp: Input)
    ensures Base(inp, 0) == Reconcile(inp.env)
  {
  }
}
