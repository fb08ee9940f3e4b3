/** One live created workload per account is enough: with any limit of at least one the
    explorer can always reach a saturated state, and it gets there in finitely many steps. */
module Canonical {
  import opened Model
  import opened Semantics
  import opened Attack
  import opened Shape
  import opened Cover
  import opened Legality
  import opened Reference

  /** Only the checker's names are in use and every live created object is controlled. */
  ghost predicate OwnNames(w: World) {
    && (forall u :: u in w.env.pods && Standalone(u) ==> u.RefPod? && u in w.att.pods)
    && (forall c :: c in w.env.ctrls && CreatedDeploy(c) ==> c.RefDeploy? && c in w.att.ctrls)
  }

  ghost predicate RefGood(base: Env, s: RefState) {
    Inv(base, s.world) && OwnNames(s.world) && Numbered(s)
  }

  lemma RefStepKeepsGood(st: Static, limit: nat, base: Env, s: RefState, window: Option<Option<int>>, act: Act)
    requires st.api != [] && RefGood(base, s) && WindowFits(window, s.world.env) && act in RefActs(st, limit, s, window)
    ensures RefGood(base, RefDo(st, s, act)) && WindowFits(window, RefDo(st, s, act).world.env)
    ensures Richer(s.world, RefDo(st, s, act).world)
  {
    hide EnvInv, RefActs, Numbered, Do, Enabled, Reconcile, Text;
    RefActIsLegal(st, limit, s, window, act);
    RefDoNumbered(st, limit, s, window, act);
    StepKeepsInv(st, RuleOf(window), base, s.world, act);
    StepEnriches(st, RuleOf(window), s.world, act);
    StepKeepsNames(st, limit, s, window, act);
  }

  lemma StepKeepsNames(st: Static, limit: nat, s: RefState, window: Option<Option<int>>, act: Act)
    requires st.api != [] && OwnNames(s.world) && act in RefActs(st, limit, s, window)
    ensures OwnNames(RefDo(st, s, act).world)
  {
    hide Reconcile, Text, CanRead, MayExec, MaySubmit, CredCheck, MyPods, MyCtrls;
    match act {
      case NewPod(_, _, _) => assert act in PodActs(st, limit, s, window);
      case NewCtrl(_, a, uid, z) =>
        assert act in CtrlActs(st, limit, s, window);
        CtrlKeepsNames(s.world, a, uid, z);
      case _ =>
    }
  }

  lemma CtrlKeepsNames(w: World, a: Account, uid: Uid, z: bool)
    requires OwnNames(w) && uid.RefDeploy?
    ensures OwnNames(World(WithCtrl(w.env, a, uid, z), w.att.(ctrls := w.att.ctrls + {uid})))
  {
    hide Reconcile, Text;
    var m := Unreconciled(w.env, a, uid, z);
    ReconcileKeepsPods(m);
    ReconcileOnlyPods(m);
  }

  // ---------------------------------------------------------------- distance to saturation

  ghost function LackingPods(w: World): set<Account> { set a | a in w.env.sas && !PodRep(w, a) }
  ghost function LackingCtrls(w: World): set<Account> { set a | a in w.env.sas && !CtrlRep(w, a) }
  function Uncontrolled(w: World): set<Uid> { set u | u in w.env.pods && u !in w.att.pods }
  function Unread(w: World): set<SecretKey> { set s | s in w.env.secrets && Known(s, w.env.secrets[s]) !in w.att.know }
  function Untaken(st: Static, w: World): set<(Uid, string)>
    requires st.api != []
  {
    set u, aud | u in w.env.pods && aud in Audiences(st, w.env.pods[u]) && Yields(st, w, u, aud)
      && Token(st, w.env, u, aud) !in w.att.creds :: (u, aud)
  }

  /** Strictly closer to saturation, lexicographically. */
  ghost predicate Closer(st: Static, v: World, w: World)
    requires st.api != []
  {
    var a, b := |LackingPods(v)| + |LackingCtrls(v)|, |LackingPods(w)| + |LackingCtrls(w)|;
    || a < b
    || (a == b && |Uncontrolled(v)| < |Uncontrolled(w)|)
    || (a == b && |Uncontrolled(v)| == |Uncontrolled(w)| && |Unread(v)| < |Unread(w)|)
    || (a == b && |Uncontrolled(v)| == |Uncontrolled(w)| && |Unread(v)| == |Unread(w)| && |Untaken(st, v)| < |Untaken(st, w)|)
  }

  lemma SmallerSet<T>(a: set<T>, b: set<T>)
    requires a <= b
    ensures |a| <= |b|
    ensures a != b ==> |a| < |b|
  {
    assert b == a + (b - a);
  }

  lemma LackShrinks(w: World, v: World)
    requires Richer(w, v) && w.env.ctrls.Keys <= v.env.ctrls.Keys
    ensures LackingPods(v) <= LackingPods(w) && LackingCtrls(v) <= LackingCtrls(w)
    ensures |LackingPods(v)| <= |LackingPods(w)| && |LackingCtrls(v)| <= |LackingCtrls(w)|
  {
    forall a | PodRep(w, a)
      ensures PodRep(v, a)
    {
      var u :| u in w.env.pods && Standalone(u) && u.account == a && u in w.att.pods;
      assert u in v.env.pods && u in v.att.pods;
    }
    forall a | CtrlRep(w, a)
      ensures CtrlRep(v, a)
    {
      var c :| c in w.env.ctrls && CreatedDeploy(c) && c.account == a && c in w.att.ctrls;
      assert c in v.env.ctrls && c in v.att.ctrls;
    }
    SmallerSet(LackingPods(v), LackingPods(w));
    SmallerSet(LackingCtrls(v), LackingCtrls(w));
  }

  lemma ObtainCloser(st: Static, w: World, u: Uid, aud: string)
    requires st.api != [] && Yields(st, w, u, aud) && Token(st, w.env, u, aud) !in w.att.creds
    ensures Closer(st, Do(st, w, Obtain(u, aud)), w)
  {
    var v := Do(st, w, Obtain(u, aud));
    LackShrinks(w, v);
    assert Uncontrolled(v) == Uncontrolled(w);
    assert Unread(v) == Unread(w);
    assert (u, aud) in Untaken(st, w) && (u, aud) !in Untaken(st, v);
    SmallerSet(Untaken(st, v), Untaken(st, w));
  }

  lemma ControlCloser(st: Static, w: World, v: World, u: Uid)
    requires st.api != [] && u in w.env.pods && u !in w.att.pods && v == World(w.env, w.att.(pods := w.att.pods + {u}))
    ensures Closer(st, v, w)
  {
    LackShrinks(w, v);
    assert u in Uncontrolled(w) && u !in Uncontrolled(v);
    SmallerSet(Uncontrolled(v), Uncontrolled(w));
  }

  lemma ReadCloser(st: Static, w: World, c: Cred, s: SecretKey)
    requires st.api != [] && s in w.env.secrets && Known(s, w.env.secrets[s]) !in w.att.know
    ensures Closer(st, Do(st, w, Read(c, s)), w)
  {
    var v := Do(st, w, Read(c, s));
    LackShrinks(w, v);
    assert Uncontrolled(v) == Uncontrolled(w);
    assert s in Unread(w) && s !in Unread(v);
    SmallerSet(Unread(v), Unread(w));
  }

  lemma PodCloser(st: Static, w: World, c: Cred, a: Account, uid: Uid)
    requires st.api != [] && a in w.env.sas && !PodRep(w, a) && Standalone(uid) && uid.account == a && uid !in w.env.pods
    ensures Closer(st, Do(st, w, NewPod(c, a, uid)), w)
  {
    var v := Do(st, w, NewPod(c, a, uid));
    LackShrinks(w, v);
    assert uid in v.env.pods && uid in v.att.pods && PodRep(v, a);
    assert a in LackingPods(w) && a !in LackingPods(v);
    SmallerSet(LackingPods(v), LackingPods(w));
  }

  lemma CtrlCloser(st: Static, w: World, c: Cred, a: Account, uid: Uid)
    requires st.api != [] && a in w.env.sas && !CtrlRep(w, a) && CreatedDeploy(uid) && uid.account == a && uid !in w.env.ctrls
    ensures Closer(st, Do(st, w, NewCtrl(c, a, uid, false)), w)
  {
    hide Reconcile;
    var v := Do(st, w, NewCtrl(c, a, uid, false));
    var m := Unreconciled(w.env, a, uid, false);
    ReconcileKeepsPods(m);
    ReconcileOnlyPods(m);
    LackShrinks(w, v);
    assert uid in v.env.ctrls && uid in v.att.ctrls && CtrlRep(v, a);
    assert a in LackingCtrls(w) && a !in LackingCtrls(v);
    SmallerSet(LackingCtrls(v), LackingCtrls(w));
  }

  // ---------------------------------------------------------------- an unsaturated state can move

  lemma NoRepNoPods(base: Env, s: RefState, a: Account)
    requires RefGood(base, s)
    ensures !PodRep(s.world, a) ==> MyPods(s.world.env, a) == {}
    ensures !CtrlRep(s.world, a) ==> MyCtrls(s.world.env, a) == {}
  {
    forall u | u in MyPods(s.world.env, a)
      ensures PodRep(s.world, a)
    {
      assert ShapedPod(s.world.env, u);
    }
    forall c | c in MyCtrls(s.world.env, a)
      ensures CtrlRep(s.world, a)
    {
    }
  }

  lemma UserCanMove(st: Static, limit: nat, base: Env, s: RefState, window: Option<Option<int>>, c: Cred) returns (act: Act)
    requires st.Valid() && limit >= 1 && RefGood(base, s) && WindowFits(window, s.world.env)
    requires c in s.world.att.creds && CanUse(st, s.world.env, c, RuleOf(window)) && !UserExhausted(st, s.world, c.user)
    ensures act in RefActs(st, limit, s, window) && Enabled(st, RuleOf(window), s.world, act)
    ensures Closer(st, Do(st, s.world, act), s.world)
  {
    hide Closer, EnvInv, CanUse, Do, CredCheck, AdmissionDecision, AdmissionVerdict, Authorized, CanRead;
    var w := s.world;
    CredCheckIsExact(st, w.env, c, window);
    if k :| k in w.env.secrets && CanRead(st, w.env.bindings, c.user, k) && Known(k, w.env.secrets[k]) !in w.att.know {
      act := Read(c, k);
      ReadCloser(st, w, c, k);
    } else if u :| MayExec(st, w.env, c.user, u) && u !in w.att.pods {
      act := Exec(c, u);
      ExecWorld(st, w, c, u);
      ControlCloser(st, w, Do(st, w, act), u);
    } else if a :| MayCreate(st, w.env, c.user, a, "pods") && !PodRep(w, a) {
      act := NewPod(c, a, RefPod(a, s.pods));
      NoRepNoPods(base, s, a);
      VerdictsAgree(st, c.user, a.ns, a.name);
      PodCloser(st, w, c, a, RefPod(a, s.pods));
    } else {
      var a :| MayCreate(st, w.env, c.user, a, "deployments") && !CtrlRep(w, a);
      act := NewCtrl(c, a, RefDeploy(a, s.deploys), false);
      NoRepNoPods(base, s, a);
      VerdictsAgree(st, c.user, a.ns, a.name);
      CtrlCloser(st, w, c, a, RefDeploy(a, s.deploys));
    }
    RefActIsLegal(st, limit, s, window, act);
  }

  lemma ExecWorld(st: Static, w: World, c: Cred, u: Uid)
    requires u in w.env.pods
    ensures Do(st, w, Exec(c, u)) == World(w.env, w.att.(pods := w.att.pods + {u})) == Do(st, w, Own(u))
  {
  }

  /** Unless saturated, some step of the explorer brings it strictly closer. */
  lemma CanMove(st: Static, limit: nat, base: Env, s: RefState, window: Option<Option<int>>) returns (act: Act)
    requires st.Valid() && limit >= 1 && RefGood(base, s) && WindowFits(window, s.world.env)
    requires !Saturated(st, RuleOf(window), s.world)
    ensures act in RefActs(st, limit, s, window) && Enabled(st, RuleOf(window), s.world, act)
    ensures Closer(st, Do(st, s.world, act), s.world)
  {
    hide Closer, EnvInv, CanUse, Do, UserExhausted, CredCheck;
    var w := s.world;
    if !OwnedHeld(w) {
      var u :| u in w.env.pods && w.env.pods[u].owner.Some? && w.env.pods[u].owner.value in w.att.ctrls && u !in w.att.pods;
      act := Own(u);
      ExecWorld(st, w, Cred(InputCred(""), "", OtherUser(""), None, None, "", None), u);
      ControlCloser(st, w, Do(st, w, act), u);
    } else if !TokensHeld(st, w) {
      var u, aud :| Yields(st, w, u, aud) && !HoldsToken(st, w, u, aud);
      act := Obtain(u, aud);
      UntakenToken(st, w, u, aud);
      ObtainCloser(st, w, u, aud);
    } else {
      var c :| c in w.att.creds && CanUse(st, w.env, c, RuleOf(window)) && !UserExhausted(st, w, c.user);
      act := UserCanMove(st, limit, base, s, window, c);
    }
    RefActIsLegal(st, limit, s, window, act);
  }

  lemma UntakenToken(st: Static, w: World, u: Uid, aud: string)
    requires st.api != [] && Yields(st, w, u, aud) && !HoldsToken(st, w, u, aud)
    ensures Token(st, w.env, u, aud) !in w.att.creds
  {
    if Token(st, w.env, u, aud) in w.att.creds { HeldIsAsGood(st, w.att.creds, Token(st, w.env, u, aud)); }
  }
}
