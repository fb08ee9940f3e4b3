/** Why one saturated state per interval suffices. A world covers another when it holds at
    least as much: each created workload has a live representative of its account, each
    credential one as good as it. A saturated world keeps covering every attacker step. */
module Cover {
  import opened Model
  import opened Semantics
  import opened Attack
  import opened Shape

  // ---------------------------------------------------------------- covering

  ghost predicate PodRep(w: World, a: Account) {
    exists u :: u in w.env.pods && Standalone(u) && u.account == a && u in w.att.pods
  }

  ghost predicate CtrlRep(w: World, a: Account) {
    exists c :: c in w.env.ctrls && CreatedDeploy(c) && c.account == a && c in w.att.ctrls
  }

  /** `big` authenticates to the API as the same identity, with the same checks, for at least as
      long. A token for an audience the API does not accept is good for nothing. */
  predicate AsGood(st: Static, big: Cred, c: Cred) {
    && big.kind == c.kind && big.user == c.user && big.saUid == c.saUid
    && big.boundPod == c.boundPod && big.audience in st.api
    && (big.expires.None? || (c.expires.Some? && c.expires.value <= big.expires.value))
  }

  predicate BoundToCreated(c: Cred) { c.boundPod.Some? && Created(c.boundPod.value) }

  ghost predicate HoldsAsGood(st: Static, creds: set<Cred>, c: Cred) {
    c.audience in st.api ==> exists big :: big in creds && AsGood(st, big, c)
  }

  ghost predicate CoversAtt(st: Static, a: Att, big: Att) {
    && a.know <= big.know
    && (forall u :: u in a.pods && !Created(u) ==> u in big.pods)
    && (forall c :: c in a.ctrls && !Created(c) ==> c in big.ctrls)
    && (forall c :: c in a.creds ==> BoundToCreated(c) || HoldsAsGood(st, big.creds, c))
  }

  ghost predicate CoversEnv(e: Env, big: World) {
    && (forall u :: u in e.pods && Standalone(u) ==> PodRep(big, u.account))
    && (forall c :: c in e.ctrls && CreatedDeploy(c) ==> CtrlRep(big, c.account))
  }

  ghost predicate Covers(st: Static, w: World, big: World) {
    CoversAtt(st, w.att, big.att) && CoversEnv(w.env, big)
  }

  // ---------------------------------------------------------------- saturation

  ghost predicate HoldsToken(st: Static, w: World, u: Uid, aud: string)
    requires u in w.env.pods && w.env.pods[u].Acct() in w.env.sas
  {
    HoldsAsGood(st, w.att.creds, Token(st, w.env, u, aud))
  }

  /** `u` is a controlled live Pod that projects a token for `aud`. */
  predicate Yields(st: Static, w: World, u: Uid, aud: string)
    requires st.api != []
  {
    u in w.att.pods && u in w.env.pods && w.env.pods[u].Acct() in w.env.sas && aud in Audiences(st, w.env.pods[u])
  }

  ghost predicate TokensHeld(st: Static, w: World)
    requires st.api != []
  {
    forall u, aud :: Yields(st, w, u, aud) ==> HoldsToken(st, w, u, aud)
  }

  ghost predicate OwnedHeld(w: World) {
    forall u :: u in w.env.pods && w.env.pods[u].owner.Some? && w.env.pods[u].owner.value in w.att.ctrls ==> u in w.att.pods
  }

  /** Nothing more to gain from requests authenticated as `user`. */
  ghost predicate UserExhausted(st: Static, w: World, user: User) {
    && (forall s :: s in w.env.secrets && CanRead(st, w.env.bindings, user, s) ==> Known(s, w.env.secrets[s]) in w.att.know)
    && (forall u :: MayExec(st, w.env, user, u) ==> u in w.att.pods)
    && (forall a :: MayCreate(st, w.env, user, a, "pods") ==> PodRep(w, a))
    && (forall a :: MayCreate(st, w.env, user, a, "deployments") ==> CtrlRep(w, a))
  }

  ghost predicate Saturated(st: Static, rule: UseRule, w: World)
    requires st.api != []
  {
    && OwnedHeld(w)
    && TokensHeld(st, w)
    && forall c :: c in w.att.creds && CanUse(st, w.env, c, rule) ==> UserExhausted(st, w, c.user)
  }

  /** `r` accepts a use whenever `q` does. */
  predicate Stricter(q: UseRule, r: UseRule, now: int) {
    q == r || r.Blind? || (q.Now? && r.Window? && (r.start.None? || r.start.value <= now))
  }

  lemma StricterUse(st: Static, e: Env, c: Cred, q: UseRule, r: UseRule)
    requires Stricter(q, r, e.time) && CanUse(st, e, c, q)
    ensures CanUse(st, e, c, r)
  {
  }

  // ---------------------------------------------------------------- environments agree

  /** All that a covering world must share with the world it covers. */
  ghost predicate EnvWithin(e: Env, big: Env) {
    && e.time == big.time && e.sas == big.sas && e.bindings == big.bindings
    && e.secrets == big.secrets && e.services == big.services
    && (forall u :: u in e.pods && !Created(u) ==> u in big.pods && big.pods[u] == e.pods[u])
    && (forall c :: c in e.ctrls && !Created(c) ==> c in big.ctrls && big.ctrls[c] == e.ctrls[c])
  }

  /** Worlds grown from `big` have at least the native objects of worlds grown from `base`. */
  ghost predicate Underlies(base: Env, big: Env) {
    && EnvWithin(base, big) && big.ctrls == base.ctrls
    && (forall u :: u in base.pods ==> u in big.pods && big.pods[u] == base.pods[u])
    && (forall u :: u in Reconcile(base).pods ==> u in Reconcile(big).pods && Reconcile(big).pods[u] == Reconcile(base).pods[u])
  }

  lemma UnderliesSelf(base: Env)
    ensures Underlies(base, base)
  {
  }

  lemma NativesOver(base: Env, over: Env, w: World, big: World)
    requires Underlies(base, over) && Inv(base, w) && Inv(over, big) && (HasCreated(w.env) ==> HasCreated(big.env))
    ensures EnvWithin(w.env, big.env)
  {
    hide Reconcile, Shaped;
    ReconcileKeepsPods(over);
    ReconcileOnlyPods(base);
    ReconcileOnlyPods(over);
    var e, E := w.env, big.env;
    forall u | u in e.pods && !Created(u)
      ensures u in E.pods && E.pods[u] == e.pods[u]
    {
      assert u in Native(e).pods;
      assert u in Native(E).pods;
    }
    forall c | c in e.ctrls && !Created(c)
      ensures c in E.ctrls && E.ctrls[c] == e.ctrls[c]
    {
      assert c in Native(e).ctrls;
      assert c in Native(E).ctrls;
    }
    assert Native(e).time == e.time && Native(E).time == E.time;
    assert Native(e).sas == e.sas && Native(E).sas == E.sas;
  }

  lemma SamePhaseOver(base: Env, over: Env, w: World, big: World)
    requires Underlies(base, over) && Inv(base, w) && Inv(over, big) && CoversEnv(w.env, big)
    ensures EnvWithin(w.env, big.env)
  {
    hide Underlies, EnvInv;
    if HasCreated(w.env) { CreatedCovered(base, w, big); }
    NativesOver(base, over, w, big);
  }

  lemma CreatedCovered(base: Env, w: World, big: World)
    requires Inv(base, w) && CoversEnv(w.env, big) && HasCreated(w.env)
    ensures HasCreated(big.env)
  {
    var c :| c in w.env.ctrls && Created(c);
    assert CtrlRep(big, c.account);
  }

  lemma SamePhase(base: Env, w: World, big: World)
    requires Inv(base, w) && Inv(base, big) && CoversEnv(w.env, big)
    ensures EnvWithin(w.env, big.env)
  {
    UnderliesSelf(base);
    SamePhaseOver(base, base, w, big);
  }

  // ---------------------------------------------------------------- credentials transfer

  /** A live Pod the attacker controls yields a token accepted under any rule. */
  lemma ControlledPodAuthenticates(st: Static, rule: UseRule, w: World, u: Uid) returns (c: Cred)
    requires st.Valid() && TokensHeld(st, w) && Stricter(Now, rule, w.env.time)
    requires u in w.att.pods && u in w.env.pods && w.env.pods[u].Acct() in w.env.sas && w.env.pods[u].audiences == []
    ensures c in w.att.creds && CanUse(st, w.env, c, rule) && c.user == SaUser(w.env.pods[u].Acct())
  {
    var aud := st.api[0];
    assert Yields(st, w, u, aud);
    assert HoldsToken(st, w, u, aud);
    c :| c in w.att.creds && AsGood(st, c, Token(st, w.env, u, aud));
    assert CredentialUsable(st, w.env, c, w.env.time).Usable?;
    StricterUse(st, w.env, c, Now, rule);
  }

  /** An account that has any representative at all can be authenticated as. */
  lemma RepresentativeAuthenticates(st: Static, rule: UseRule, w: World, a: Account) returns (c: Cred)
    requires st.Valid() && OwnedHeld(w) && TokensHeld(st, w) && Shaped(w.env) && Stricter(Now, rule, w.env.time)
    requires a in w.env.sas && (PodRep(w, a) || CtrlRep(w, a))
    ensures c in w.att.creds && CanUse(st, w.env, c, rule) && c.user == SaUser(a)
  {
    if PodRep(w, a) {
      var u :| u in w.env.pods && Standalone(u) && u.account == a && u in w.att.pods;
      assert ShapedPod(w.env, u);
      c := ControlledPodAuthenticates(st, rule, w, u);
    } else {
      var o :| o in w.env.ctrls && CreatedDeploy(o) && o.account == a && o in w.att.ctrls;
      assert Owns(w.env.pods, o);
      var u :| u in w.env.pods && w.env.pods[u].owner == Some(o);
      assert Created(u) && ShapedPod(w.env, u);
      c := ControlledPodAuthenticates(st, rule, w, u);
    }
  }

  /** Whatever identity a covered attacker can act as, the covering one can too. */
  lemma IdentityTransfers(st: Static, q: UseRule, r: UseRule, w: World, big: World, c: Cred) returns (d: Cred)
    requires st.Valid() && !q.Blind? && Stricter(q, r, w.env.time) && Stricter(Now, r, w.env.time)
    requires Shaped(w.env) && Shaped(big.env) && EnvWithin(w.env, big.env) && Covers(st, w, big)
    requires OwnedHeld(big) && TokensHeld(st, big)
    requires c in w.att.creds && CanUse(st, w.env, c, q)
    ensures d in big.att.creds && CanUse(st, big.env, d, r) && d.user == c.user
  {
    StricterUse(st, w.env, c, q, r);
    if BoundToCreated(c) {
      d := BoundTransfers(st, q, r, w, big, c);
    } else {
      UsableAudience(st, w.env, c, q);
      d :| d in big.att.creds && AsGood(st, d, c);
      AsGoodUse(st, w.env, big.env, r, c, d);
    }
  }

  lemma UsableAudience(st: Static, e: Env, c: Cred, q: UseRule)
    requires !q.Blind? && CanUse(st, e, c, q)
    ensures c.audience in st.api
  {
  }

  lemma AsGoodUse(st: Static, e: Env, E: Env, r: UseRule, c: Cred, d: Cred)
    requires EnvWithin(e, E) && AsGood(st, d, c) && !BoundToCreated(c) && CanUse(st, e, c, r)
    ensures CanUse(st, E, d, r)
  {
    if r.Window? {
      var t :| (r.start.None? || r.start.value <= t) && t <= e.time && CredentialUsable(st, e, c, t).Usable?;
      assert CredentialUsable(st, E, d, t).Usable?;
    }
  }

  lemma BoundTransfers(st: Static, q: UseRule, r: UseRule, w: World, big: World, c: Cred) returns (d: Cred)
    requires st.Valid() && Stricter(Now, r, w.env.time)
    requires Shaped(w.env) && Shaped(big.env) && EnvWithin(w.env, big.env) && Covers(st, w, big)
    requires OwnedHeld(big) && TokensHeld(st, big)
    requires BoundToCreated(c) && CanUse(st, w.env, c, q) && !q.Blind?
    ensures d in big.att.creds && CanUse(st, big.env, d, r) && d.user == c.user
  {
    var u := c.boundPod.value;
    assert u in w.env.pods && c.user == SaUser(w.env.pods[u].Acct()) && w.env.pods[u].Acct() in w.env.sas;
    assert ShapedPod(w.env, u);
    assert if Standalone(u) then PodRep(big, u.account) else CtrlRep(big, u.owner.account);
    d := RepresentativeAuthenticates(st, r, big, Class(u));
  }

  // ---------------------------------------------------------------- steps stay covered

  lemma ObtainCovered(st: Static, w: World, big: World, u: Uid, aud: string)
    requires st.Valid() && EnvWithin(w.env, big.env) && Covers(st, w, big) && TokensHeld(st, big)
    requires Yields(st, w, u, aud)
    ensures Covers(st, Do(st, w, Obtain(u, aud)), big)
  {
    var t := Token(st, w.env, u, aud);
    if !Created(u) {
      assert Yields(st, big, u, aud);
      assert HoldsToken(st, big, u, aud);
      assert Token(st, big.env, u, aud) == t;
    }
    assert BoundToCreated(t) || HoldsAsGood(st, big.att.creds, t);
  }

  /** A covered attacker's request gains nothing the saturated attacker could not get. */
  lemma RequestExhausted(st: Static, q: UseRule, r: UseRule, w: World, big: World, c: Cred)
    requires st.Valid() && !q.Blind? && Stricter(q, r, w.env.time) && Stricter(Now, r, w.env.time)
    requires Shaped(w.env) && Shaped(big.env) && EnvWithin(w.env, big.env) && Covers(st, w, big) && Saturated(st, r, big)
    requires c in w.att.creds && CanUse(st, w.env, c, q)
    ensures UserExhausted(st, big, c.user)
  {
    var d := IdentityTransfers(st, q, r, w, big, c);
  }

  lemma RequestCovered(st: Static, q: UseRule, w: World, big: World, act: Act)
    requires st.Valid() && Shaped(w.env) && EnvWithin(w.env, big.env) && Covers(st, w, big)
    requires act.Read? || act.Exec? || act.NewPod? || act.NewCtrl?
    requires Enabled(st, q, w, act) && UserExhausted(st, big, act.cred.user)
    ensures Covers(st, Do(st, w, act), big)
  {
    match act {
      case Read(c, s) =>
      case Exec(c, u) =>
        if !Created(u) { assert MayExec(st, big.env, c.user, u); }
      case NewPod(c, a, uid) =>
        assert MayCreate(st, big.env, c.user, a, "pods");
      case NewCtrl(c, a, uid, z) =>
        assert MayCreate(st, big.env, c.user, a, "deployments");
        NewCtrlCovered(w, big, a, uid, z);
    }
  }

  lemma OwnCovered(st: Static, q: UseRule, w: World, big: World, u: Uid)
    requires st.Valid() && Shaped(w.env) && EnvWithin(w.env, big.env) && Covers(st, w, big) && OwnedHeld(big)
    requires Enabled(st, q, w, Own(u))
    ensures Covers(st, Do(st, w, Own(u)), big)
  {
  }

  /** A saturated world that covers a state still covers it after any attacker step. */
  lemma StepCoveredOver(st: Static, q: UseRule, r: UseRule, base: Env, over: Env, w: World, big: World, act: Act)
    requires st.Valid() && !q.Blind? && Stricter(q, r, w.env.time) && Stricter(Now, r, w.env.time) && Underlies(base, over)
    requires Inv(base, w) && Inv(over, big) && Covers(st, w, big) && Saturated(st, r, big)
    requires Enabled(st, q, w, act)
    ensures Inv(base, Do(st, w, act)) && Covers(st, Do(st, w, act), big)
    ensures EnvWithin(Do(st, w, act).env, big.env)
  {
    hide Underlies;
    SamePhaseOver(base, over, w, big);
    StepKeepsInv(st, q, base, w, act);
    match act {
      case Obtain(u, aud) => ObtainCovered(st, w, big, u, aud);
      case Own(u) => OwnCovered(st, q, w, big, u);
      case _ =>
        RequestExhausted(st, q, r, w, big, act.cred);
        RequestCovered(st, q, w, big, act);
    }
    SamePhaseOver(base, over, Do(st, w, act), big);
  }

  lemma StepCovered(st: Static, q: UseRule, r: UseRule, base: Env, w: World, big: World, act: Act)
    requires st.Valid() && !q.Blind? && Stricter(q, r, w.env.time) && Stricter(Now, r, w.env.time)
    requires Inv(base, w) && Inv(base, big) && Covers(st, w, big) && Saturated(st, r, big)
    requires Enabled(st, q, w, act)
    ensures Inv(base, Do(st, w, act)) && Covers(st, Do(st, w, act), big)
    ensures EnvWithin(Do(st, w, act).env, big.env)
  {
    hide Covers, EnvInv, Saturated, Enabled, Do, EnvWithin;
    UnderliesSelf(base);
    StepCoveredOver(st, q, r, base, base, w, big, act);
  }

  lemma NewCtrlCovered(w: World, big: World, a: Account, uid: Uid, z: bool)
    requires CoversEnv(w.env, big) && CtrlRep(big, a) && CreatedDeploy(uid) && uid.account == a
    ensures CoversEnv(WithCtrl(w.env, a, uid, z), big)
  {
    ReconcileKeepsPods(Unreconciled(w.env, a, uid, z));
  }

  lemma {:induction false} ActsCoveredOver(st: Static, q: UseRule, r: UseRule, base: Env, over: Env, w: World, big: World, acts: seq<Act>)
    requires st.Valid() && !q.Blind? && Stricter(q, r, w.env.time) && Stricter(Now, r, w.env.time) && Underlies(base, over)
    requires Inv(base, w) && Inv(over, big) && Covers(st, w, big) && Saturated(st, r, big)
    requires RunActs(st, q, w, acts).Some?
    ensures var w' := RunActs(st, q, w, acts).value;
      Inv(base, w') && Covers(st, w', big) && EnvWithin(w'.env, big.env)
  {
    hide Underlies, EnvInv, Saturated, Enabled, Do;
    SamePhaseOver(base, over, w, big);
    if acts != [] {
      ActsCoveredOver(st, q, r, base, over, w, big, acts[..|acts| - 1]);
      StepCoveredOver(st, q, r, base, over, RunActs(st, q, w, acts[..|acts| - 1]).value, big, acts[|acts| - 1]);
    }
  }

  lemma ActsCovered(st: Static, q: UseRule, r: UseRule, base: Env, w: World, big: World, acts: seq<Act>)
    requires st.Valid() && !q.Blind? && Stricter(q, r, w.env.time) && Stricter(Now, r, w.env.time)
    requires Inv(base, w) && Inv(base, big) && Covers(st, w, big) && Saturated(st, r, big)
    requires RunActs(st, q, w, acts).Some?
    ensures var w' := RunActs(st, q, w, acts).value;
      Inv(base, w') && Covers(st, w', big) && EnvWithin(w'.env, big.env)
  {
    hide Covers, EnvInv, Saturated, RunActs, EnvWithin;
    UnderliesSelf(base);
    ActsCoveredOver(st, q, r, base, base, w, big, acts);
  }

  /** Any objective violated in a covered state is violated in the saturated one. */
  lemma ViolationCovered(st: Static, q: UseRule, r: UseRule, w: World, big: World, o: Objective)
    requires st.Valid() && !q.Blind? && Stricter(q, r, w.env.time) && Stricter(Now, r, w.env.time)
    requires Shaped(w.env) && Shaped(big.env) && EnvWithin(w.env, big.env) && Covers(st, w, big) && Saturated(st, r, big)
    requires Violated(st, q, w, o)
    ensures Violated(st, r, big, o)
  {
    if o.NoSecretRead? {
      var c :| c in w.att.creds && CanUse(st, w.env, c, q) && CanRead(st, w.env.bindings, c.user, o.secret);
      var d := IdentityTransfers(st, q, r, w, big, c);
    }
  }

  // ---------------------------------------------------------------- defender actions

  lemma PodRepSurvives(w: World, a: Action, acct: Account)
    requires Shaped(w.env) && NativeAction(a) && PodRep(w, acct)
    requires !(a.DeletePodsExcept? && a.account == acct)
    ensures PodRep(DefendWorld(w, a), acct)
  {
    var u :| u in w.env.pods && Standalone(u) && u.account == acct && u in w.att.pods;
    assert ShapedPod(w.env, u);
    assert u in Defend(w.env, a).pods;
    ReconcileKeepsPods(Defend(w.env, a));
    assert u in DefendWorld(w, a).env.pods;
  }

  lemma CtrlRepSurvives(w: World, a: Action, acct: Account)
    requires Shaped(w.env) && NativeAction(a) && CtrlRep(w, acct)
    requires !(a.DeleteControllersExcept? && a.account == acct)
    ensures CtrlRep(DefendWorld(w, a), acct)
  {
    var c :| c in w.env.ctrls && CreatedDeploy(c) && c.account == acct && c in w.att.ctrls;
    assert c in DefendWorld(w, a).env.ctrls;
  }

  lemma DeletedPods(e: Env, a: Action, u: Uid)
    requires Shaped(e) && NativeAction(a) && u in e.pods && Standalone(u) && u in Defend(e, a).pods
    ensures !(a.DeletePodsExcept? && a.account == u.account)
  {
    assert ShapedPod(e, u);
  }

  lemma DeletedCtrls(e: Env, a: Action, c: Uid)
    requires Shaped(e) && NativeAction(a) && c in e.ctrls && CreatedDeploy(c) && c in Defend(e, a).ctrls
    ensures !(a.DeleteControllersExcept? && a.account == c.account)
  {
  }

  /** The defender cannot tell a created workload from its representative. */
  lemma DefendCovered(st: Static, w: World, big: World, a: Action)
    requires Shaped(w.env) && Shaped(big.env) && NativeAction(a) && Covers(st, w, big)
    ensures Covers(st, DefendWorld(w, a), DefendWorld(big, a))
  {
    hide Reconcile, Defend, CoversAtt, PodRep, CtrlRep;
    var e := DefendWorld(w, a).env;
    ReconcileKeepsPods(Defend(w.env, a));
    DefendShrinks(w.env, a);
    assert e.ctrls == Defend(w.env, a).ctrls by { ReconcileOnlyPods(Defend(w.env, a)); }
    forall u | u in e.pods && Standalone(u)
      ensures PodRep(DefendWorld(big, a), u.account)
    {
      assert u in Defend(w.env, a).pods && u in w.env.pods;
      DeletedPods(w.env, a, u);
      PodRepSurvives(big, a, u.account);
    }
    forall c | c in e.ctrls && CreatedDeploy(c)
      ensures CtrlRep(DefendWorld(big, a), c.account)
    {
      assert c in w.env.ctrls;
      DeletedCtrls(w.env, a, c);
      CtrlRepSurvives(big, a, c.account);
    }
  }

  // ---------------------------------------------------------------- covering composes

  lemma AsGoodTransitive(st: Static, a: Cred, b: Cred, c: Cred)
    requires AsGood(st, b, a) && AsGood(st, c, b)
    ensures AsGood(st, c, a)
  {
  }

  lemma AsGoodSelf(st: Static, c: Cred)
    requires c.audience in st.api
    ensures AsGood(st, c, c)
  {
  }

  lemma HeldIsAsGood(st: Static, creds: set<Cred>, c: Cred)
    requires c in creds
    ensures HoldsAsGood(st, creds, c)
  {
    if c.audience in st.api { AsGoodSelf(st, c); }
  }

  lemma WithinCovers(st: Static, a: Att, b: Att)
    requires a.creds <= b.creds && a.pods <= b.pods && a.ctrls <= b.ctrls && a.know <= b.know
    ensures CoversAtt(st, a, b)
  {
    forall c | c in a.creds
      ensures HoldsAsGood(st, b.creds, c)
    {
      HeldIsAsGood(st, b.creds, c);
    }
  }

  lemma CoversAttTransitive(st: Static, a: Att, b: Att, c: Att)
    requires CoversAtt(st, a, b) && CoversAtt(st, b, c)
    ensures CoversAtt(st, a, c)
  {
    forall x | x in a.creds && !BoundToCreated(x)
      ensures HoldsAsGood(st, c.creds, x)
    {
      if x.audience in st.api {
        var y :| y in b.creds && AsGood(st, y, x);
        var z :| z in c.creds && AsGood(st, z, y);
        AsGoodTransitive(st, x, y, z);
      }
    }
  }

  /** `big` holds everything `w` does, objects by name and credentials up to longer-lived ones. */
  ghost predicate Grows(st: Static, w: World, big: World) {
    && CoversAtt(st, w.att, big.att)
    && w.att.pods <= big.att.pods && w.att.ctrls <= big.att.ctrls
    && w.env.pods.Keys <= big.env.pods.Keys && w.env.ctrls.Keys <= big.env.ctrls.Keys
  }

  lemma CoversThenGrows(st: Static, w: World, mid: World, big: World)
    requires Covers(st, w, mid) && Grows(st, mid, big)
    ensures Covers(st, w, big)
  {
    CoversAttTransitive(st, w.att, mid.att, big.att);
    forall u | u in w.env.pods && Standalone(u)
      ensures PodRep(big, u.account)
    {
      var v :| v in mid.env.pods && Standalone(v) && v.account == u.account && v in mid.att.pods;
      assert v in big.env.pods && v in big.att.pods;
    }
    forall c | c in w.env.ctrls && CreatedDeploy(c)
      ensures CtrlRep(big, c.account)
    {
      var d :| d in mid.env.ctrls && CreatedDeploy(d) && d.account == c.account && d in mid.att.ctrls;
      assert d in big.env.ctrls && d in big.att.ctrls;
    }
  }
}
