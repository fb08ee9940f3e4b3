/** Exactly when the engine is right about an inventory: a clash is not only the one thing that can
    make it miss an attack, every clash does so for some facts, bindings and objective. */
module ClashMisses {
  import opened Model
  import opened Semantics
  import opened Attack
  import opened Rules
  import opened Shape
  import opened Fixpoint
  import opened Case
  import opened Standstill
  import opened Tenure
  import opened Exactness
  import opened Termination

  // ---------------------------------------------------------------- what may vary

  predicate SameObjects(e: Env, f: Env) {
    e.time == f.time && e.sas == f.sas && e.pods == f.pods && e.ctrls == f.ctrls && e.counters == f.counters
  }

  /** `v` has the inventory's Pods, controllers and service accounts, makes some of the same claims
      about historical Pods, and takes the first of the same actions. Roles, bindings, Secrets,
      services, policies, credentials, initial facts and objectives are its own. */
  predicate Varies(inp: Input, v: Input) {
    && v.st.api == inp.st.api && v.st.ttl == inp.st.ttl && SameObjects(v.env, inp.env)
    && (forall h :: h in v.historical ==> h in inp.historical)
    && v.actions <= inp.actions
  }

  ghost predicate ReportsAll(v: Input, view: Perspective, stages: seq<State>)
    requires v.st.api != []
  {
    forall obj :: Attainable(v, view, obj) ==> Reported(v, stages, obj)
  }

  /** The engine reports every attainable objective, whatever varies. */
  ghost predicate NeverMisses(inp: Input, view: Perspective) {
    forall v, stages :: Varies(inp, v) && WellFormed(v) && EngineRun(v, view, Full, stages) ==> ReportsAll(v, view, stages)
  }

  lemma {:induction false} SameBases(inp: Input, v: Input, k: nat)
    requires Varies(inp, v) && k <= |v.actions|
    ensures SameObjects(Base(v, k), Base(inp, k))
  {
    hide Reconcile, Defend;
    if k == 0 {
      SameReconciled(v.env, inp.env);
    } else {
      SameBases(inp, v, k - 1);
      assert v.actions[k - 1] == inp.actions[k - 1];
      SameDefended(Base(v, k - 1), Base(inp, k - 1), inp.actions[k - 1]);
      SameReconciled(Defend(Base(v, k - 1), inp.actions[k - 1]), Defend(Base(inp, k - 1), inp.actions[k - 1]));
    }
  }

  lemma SameReconciled(e: Env, f: Env)
    requires SameObjects(e, f)
    ensures SameObjects(Reconcile(e), Reconcile(f))
  {
    assert Needy(e) == Needy(f);
    assert forall c :: NextNumber(e, c) == NextNumber(f, c);
    assert ReplicaUids(e) == ReplicaUids(f);
    assert NewReplicas(e) == NewReplicas(f);
    assert NewCounters(e) == NewCounters(f);
  }

  lemma SameDefended(e: Env, f: Env, a: Action)
    requires SameObjects(e, f)
    ensures SameObjects(Defend(e, a), Defend(f, a))
  {
    match a {
      case Rotate(_) =>
      case DeletePodsExcept(acct, keep) => assert Defend(e, a).pods == Defend(f, a).pods;
      case DeleteControllersExcept(acct, keep) =>
        DeletesVictims(e, acct, keep);
        DeletesVictims(f, acct, keep);
      case _ =>
    }
  }

  // ---------------------------------------------------------------- clashes carry over

  /** What the inventory holds, the first interval holds as well: history adds no clash there. */
  lemma HistoryClash(inp: Input, view: Perspective, j: nat, u: Uid)
    requires inp.st.api != [] && j <= |inp.actions| && u in inp.env.pods
    requires Clashes(inp.st, Era(inp, view, -1), Era(inp, view, j), u)
    ensures j > 0 && Clashes(inp.st, Era(inp, view, 0), Era(inp, view, j), u)
  {
    hide Reconcile;
    ReconcileKeepsPods(inp.env);
    ReconcileOnlyPods(inp.env);
  }

  lemma SameClash(st: Static, vt: Static, e: Env, f: Env, e': Env, f': Env, u: Uid)
    requires st.api == vt.api != [] && Clashes(vt, e', f', u) && u in e.pods && u in f.pods
    requires e.pods[u] == e'.pods[u] && f.pods[u] == f'.pods[u] && e.time == e'.time && f.time == f'.time && e.sas == e'.sas && f.sas == f'.sas
    ensures Clashes(st, e, f, u)
  {
  }

  lemma SameHistory(inp: Input, v: Input, view: Perspective, u: Uid)
    requires WellFormed(inp) && Varies(inp, v) && u in HistoryEnv(v, view, Full).pods
    ensures u in HistoryEnv(inp, view, Full).pods && HistoryEnv(inp, view, Full).pods[u] == HistoryEnv(v, view, Full).pods[u]
    ensures u !in v.env.pods ==> HistoricalPods(inp, view, Full) != {}
  {
    if u !in v.env.pods {
      var h :| h in v.historical && KeptHistorical(h, view, Full) && h.uid == u;
      FirstClaimKept(v.historical, view, u);
      FirstClaimKept(inp.historical, view, u);
      assert u in HistoricalPods(inp, view, Full);
    }
  }

  /** What varies brings no clash with it. */
  lemma ClashFreeVaries(inp: Input, v: Input, view: Perspective)
    requires WellFormed(inp) && WellFormed(v) && Varies(inp, v) && ClashFree(inp, view)
    ensures ClashFree(v, view)
  {
    hide Reconcile, Base, HistoryEnv, Clashes, Plain;
    ValidStatic(v);
    ValidStatic(inp);
    forall i, j, u | FirstEra(HistoryRuns(v, view, Full)) <= i < j <= |v.actions|
      ensures !Clashes(v.st, Era(v, view, i), Era(v, view, j), u)
    {
      if Clashes(v.st, Era(v, view, i), Era(v, view, j), u) { ClashCarries(inp, v, view, i, j, u); }
    }
  }

  lemma ClashCarries(inp: Input, v: Input, view: Perspective, i: int, j: nat, u: Uid)
    requires WellFormed(inp) && WellFormed(v) && Varies(inp, v) && inp.st.api != []
    requires FirstEra(HistoryRuns(v, view, Full)) <= i < j <= |v.actions| && Clashes(v.st, Era(v, view, i), Era(v, view, j), u)
    ensures !ClashFree(inp, view)
  {
    hide Reconcile, Base, HistoryEnv, Plain;
    SameBases(inp, v, j);
    if i == -1 && u !in v.env.pods {
      SameHistory(inp, v, view, u);
      HistoryTimes(inp, view);
      HistoryTimes(v, view);
      SameClash(inp.st, v.st, Era(inp, view, -1), Era(inp, view, j), Era(v, view, -1), Era(v, view, j), u);
    } else {
      var k := if i == -1 then 0 else i;
      if i == -1 { HistoryClash(v, view, j, u); }
      SameBases(inp, v, k);
      SameClash(inp.st, v.st, Era(inp, view, k), Era(inp, view, j), Era(v, view, k), Era(v, view, j), u);
    }
  }

  lemma HistoryTimes(inp: Input, view: Perspective)
    ensures HistoryEnv(inp, view, Full).time == inp.env.time && HistoryEnv(inp, view, Full).sas == inp.env.sas
  {
  }

  // ---------------------------------------------------------------- how a clash comes about

  /** A Pod its controller recreated: it has the controller's settings. */
  predicate Recreated(ctrls: map<Uid, Controller>, u: Uid, p: Pod) {
    u.Replica? && u.owner in ctrls && p.Acct() == ctrls[u.owner].Acct() && p.audiences == ctrls[u.owner].audiences
  }

  predicate Inherits(ctrls: map<Uid, Controller>, e: Env, f: Env) {
    forall u :: u in f.pods ==> (u in e.pods && f.pods[u] == e.pods[u]) || Recreated(ctrls, u, f.pods[u])
  }

  lemma ReconcileInherits(ctrls: map<Uid, Controller>, e: Env)
    requires forall c :: c in e.ctrls ==> c in ctrls && ctrls[c] == e.ctrls[c]
    ensures Inherits(ctrls, e, Reconcile(e))
  {
    hide Reconcile;
    ReconcileKeepsPods(e);
  }

  lemma {:induction false} BaseInherits(inp: Input, i: nat, k: nat)
    requires i <= k <= |inp.actions|
    ensures Inherits(inp.env.ctrls, Base(inp, i), Base(inp, k))
    decreases k
  {
    hide Reconcile, Defend;
    if i < k {
      BaseInherits(inp, i, k - 1);
      BaseCtrls(inp, k - 1);
      DefendShrinks(Base(inp, k - 1), inp.actions[k - 1]);
      ReconcileInherits(inp.env.ctrls, Defend(Base(inp, k - 1), inp.actions[k - 1]));
    }
  }

  /** The Pods there before any replacement: the inventory's, or history's under a UID that is free. */
  lemma FirstInherits(inp: Input, k: nat)
    requires k <= |inp.actions|
    ensures Inherits(inp.env.ctrls, inp.env, Base(inp, k))
  {
    hide Reconcile;
    BaseInherits(inp, 0, k);
    ReconcileInherits(inp.env.ctrls, inp.env);
  }

  /** Before the UID changes its account only the one Pod `p` has it, and at `t` a Pod of account
      `b` does, whose tokens the API would accept only for audiences `p` had tokens for too. */
  datatype Turn = Turn(u: Uid, p: Pod, b: Account, t: nat)

  ghost predicate Turns(inp: Input, view: Perspective, i: int, x: Turn)
    requires inp.st.api != [] && -1 <= i < x.t <= |inp.actions|
  {
    && x.p.Acct() != x.b
    && x.u in Era(inp, view, i).pods && Era(inp, view, i).pods[x.u] == x.p
    && x.u in Base(inp, x.t).pods && Base(inp, x.t).pods[x.u].Acct() == x.b
    && Clashes(inp.st, Era(inp, view, i), Base(inp, x.t), x.u)
    && (forall m :: 0 <= m < x.t && x.u in Base(inp, m).pods ==> Base(inp, m).pods[x.u] == x.p)
    && (0 <= i ==> x.u in inp.env.pods && forall m :: 0 <= m <= i ==> x.u in Base(inp, m).pods)
    && (i == -1 ==> x.u !in inp.env.pods && x.u in HistoricalPods(inp, view, Full))
  }

  /** The first interval in which the UID's Pod runs as `b`. */
  lemma {:induction false} FirstRunner(inp: Input, u: Uid, b: Account, i: int, j: nat) returns (t: nat)
    requires -1 <= i < j <= |inp.actions| && u in Base(inp, j).pods && Base(inp, j).pods[u].Acct() == b
    ensures i < t <= j && u in Base(inp, t).pods && Base(inp, t).pods[u].Acct() == b
    ensures forall m :: i < m < t && 0 <= m && u in Base(inp, m).pods ==> Base(inp, m).pods[u].Acct() != b
    decreases j
  {
    hide Base;
    if m: nat :| i < m < j && u in Base(inp, m).pods && Base(inp, m).pods[u].Acct() == b {
      t := FirstRunner(inp, u, b, i, m);
    } else {
      t := j;
    }
  }

  lemma TimesBetween(inp: Input, view: Perspective, i: int, t: nat, j: nat)
    requires WellFormed(inp) && -1 <= i < t <= j <= |inp.actions| && Era(inp, view, i).time == Base(inp, j).time
    ensures Base(inp, t).time == Base(inp, j).time && Base(inp, j).sas.Keys <= Base(inp, t).sas.Keys
  {
    hide Base, Era, Heir, Plain;
    ErasSucceed(inp, view, i, t);
    ErasSucceed(inp, view, t, j);
    EraIsBase(inp, view, t);
  }

  /** The Pods under the UID up to the turn. */
  lemma SamePod(inp: Input, view: Perspective, i: nat, u: Uid, p: Pod, b: Account, j: nat)
    requires WellFormed(inp) && i < j <= |inp.actions|
    requires u in Base(inp, i).pods && Base(inp, i).pods[u] == p && p.Acct() != b
    requires u in Base(inp, j).pods && Base(inp, j).pods[u].Acct() == b
    ensures Recreated(inp.env.ctrls, u, Base(inp, j).pods[u])
    ensures u in inp.env.pods && inp.env.pods[u] == p
    ensures forall m :: 0 <= m <= i ==> u in Base(inp, m).pods && Base(inp, m).pods[u] == p
    ensures forall m :: 0 <= m <= |inp.actions| && u in Base(inp, m).pods ==> Base(inp, m).pods[u] == p || Base(inp, m).pods[u].Acct() == b
  {
    hide Base, Plain;
    BaseInherits(inp, i, j);
    FirstInherits(inp, i);
    forall m | 0 <= m <= |inp.actions|
      ensures m <= i ==> u in Base(inp, m).pods && Base(inp, m).pods[u] == p
      ensures u in Base(inp, m).pods ==> Base(inp, m).pods[u] == p || Base(inp, m).pods[u].Acct() == b
    {
      if m <= i { BaseInherits(inp, m, i); }
      FirstInherits(inp, m);
    }
  }

  /** Whoever runs under a UID only history knew has been put there by a controller. */
  lemma NewRunner(inp: Input, u: Uid, j: nat, m: nat)
    requires u !in inp.env.pods && j <= |inp.actions| && m <= |inp.actions| && u in Base(inp, j).pods
    ensures Recreated(inp.env.ctrls, u, Base(inp, j).pods[u])
    ensures u in Base(inp, m).pods ==> Base(inp, m).pods[u].Acct() == Base(inp, j).pods[u].Acct()
  {
    hide Base;
    FirstInherits(inp, j);
    FirstInherits(inp, m);
  }

  lemma ClashTurns(inp: Input, view: Perspective, i0: int, j: nat, u: Uid) returns (i: int, x: Turn)
    requires WellFormed(inp) && inp.st.api != [] && FirstEra(HistoryRuns(inp, view, Full)) <= i0 < j <= |inp.actions|
    requires Clashes(inp.st, Era(inp, view, i0), Era(inp, view, j), u)
    ensures -1 <= i < x.t <= |inp.actions| && (i == -1 ==> HistoryRuns(inp, view, Full)) && Turns(inp, view, i, x)
  {
    hide Base, HistoryEnv, Plain, HistoryRuns, Audiences;
    i := i0;
    if i0 == -1 && u in inp.env.pods {
      HistoryClash(inp, view, j, u);
      i := 0;
    }
    var e, f := Era(inp, view, i), Base(inp, j);
    assert Clashes(inp.st, e, f, u);
    var p, b := e.pods[u], f.pods[u].Acct();
    var t := FirstRunner(inp, u, b, i, j);
    x := Turn(u, p, b, t);
    TimesBetween(inp, view, i, t, j);
    if i >= 0 {
      SamePod(inp, view, i, u, p, b, j);
      SamePod(inp, view, i, u, p, b, t);
    } else {
      HistoryPods(inp, view, u);
      NewRunner(inp, u, j, t);
      forall m | 0 <= m < t && u in Base(inp, m).pods
        ensures false
      {
        NewRunner(inp, u, j, m);
      }
      NewRunner(inp, u, t, t);
    }
    ClashesSooner(inp.st, e, Base(inp, t), f, u);
  }

  lemma HistoryPods(inp: Input, view: Perspective, u: Uid)
    requires u in HistoryEnv(inp, view, Full).pods && u !in inp.env.pods
    ensures u in HistoricalPods(inp, view, Full)
  {
  }

  lemma ClashesSooner(st: Static, e: Env, f: Env, g: Env, u: Uid)
    requires st.api != [] && Clashes(st, e, g, u) && u in f.pods && f.time == g.time && g.sas.Keys <= f.sas.Keys
    requires f.pods[u].Acct() == g.pods[u].Acct() && f.pods[u].audiences == g.pods[u].audiences
    ensures Clashes(st, e, f, u)
  {
  }

  // ---------------------------------------------------------------- the case made of a turn

  /** A name longer than that of any binding an action removes. */
  function FreshName(actions: seq<Action>): (r: string)
    ensures forall a :: a in actions && a.RemoveBinding? ==> |a.key.name| < |r|
  {
    if actions == [] then ""
    else
      var rest, a := FreshName(actions[1..]), actions[0];
      if a.RemoveBinding? && |a.key.name| >= |rest| then a.key.name + "-" else rest
  }

  function Opening(inp: Input): ObjKey { ObjKey(None, FreshName(inp.actions)) }

  /** Only the later account may read the one Secret, and all the attacker controls is the UID. */
  function CaseOf(inp: Input, x: Turn, claims: seq<InitialFact>, hs: seq<Historical>): Input
    requires x.t <= |inp.actions|
  {
    Input(Static(ROLES, [], inp.st.api, inp.st.ttl),
      inp.env.(bindings := map[Opening(inp) := ReadBinding(x.b)], secrets := map[PRIZE := 1], services := map[]),
      map[], claims, hs, inp.actions[..x.t], [NoSecretRead(PRIZE)], [], [], None, inp.maxDerivations)
  }

  /** Controlled today, or in the past by one of the claims made. */
  ghost predicate Claims(inp: Input, view: Perspective, i: int, x: Turn, claims: seq<InitialFact>, hs: seq<Historical>) {
    if i == -1 then claims == [] && |hs| == 1 && hs[0] in inp.historical && hs[0].uid == x.u && KeptHistorical(hs[0], view, Full)
    else claims == [InitialFact(ClaimPod(x.u), Observed)] && hs == []
  }

  lemma CaseWellFormed(inp: Input, view: Perspective, i: int, x: Turn, claims: seq<InitialFact>, hs: seq<Historical>)
    requires WellFormed(inp) && -1 <= i < x.t <= |inp.actions| && Turns(inp, view, i, x) && Claims(inp, view, i, x, claims, hs)
    ensures WellFormed(CaseOf(inp, x, claims, hs)) && Varies(inp, CaseOf(inp, x, claims, hs))
  {
    hide Clashes, Base, HistoryEnv, FreshName, Plain, HistoricalPods;
    var v := CaseOf(inp, x, claims, hs);
    assert forall f :: f in claims ==> f.claim == ClaimPod(x.u) && x.u in inp.env.pods;
    CasePlain(inp, x, claims, hs);
  }

  lemma CasePlain(inp: Input, x: Turn, claims: seq<InitialFact>, hs: seq<Historical>)
    requires Plain(inp) && x.t <= |inp.actions| && forall h :: h in hs ==> h in inp.historical
    requires forall f :: f in claims ==> f.claim == ClaimPod(x.u) && x.u in inp.env.pods
    ensures Plain(CaseOf(inp, x, claims, hs))
  {
    hide FreshName;
    assert forall a :: a in inp.actions[..x.t] ==> a in inp.actions;
  }

  /** Nobody takes the binding away, and nothing else is ever bound. */
  ghost predicate Granted(inp: Input, x: Turn, e: Env) {
    Opening(inp) in e.bindings && OnlyFor(e.bindings, x.b) && e.secrets == map[PRIZE := 1] && e.services == map[]
  }

  lemma GrantedOnly(inp: Input, x: Turn, e: Env)
    requires Granted(inp, x, e)
    ensures OnlyFor(e.bindings, x.b)
  {
    hide OnlyFor;
  }

  lemma StaysGranted(inp: Input, x: Turn, e: Env, a: Action)
    requires Granted(inp, x, e) && a in inp.actions
    ensures Granted(inp, x, Reconcile(Defend(e, a)))
  {
    hide Reconcile, FreshName;
    ReconcileOnlyPods(Defend(e, a));
    if a.RemoveBinding? { assert |a.key.name| < |Opening(inp).name|; }
    assert Defend(e, a).secrets == e.secrets && Defend(e, a).services == e.services && Opening(inp) in Defend(e, a).bindings;
  }

  lemma {:induction false} AlwaysGranted(inp: Input, x: Turn, claims: seq<InitialFact>, hs: seq<Historical>, k: nat)
    requires x.t <= |inp.actions| && k <= x.t
    ensures Granted(inp, x, Base(CaseOf(inp, x, claims, hs), k))
  {
    hide Reconcile, FreshName, Defend, Granted;
    var v := CaseOf(inp, x, claims, hs);
    if k == 0 {
      FirstGranted(inp, x, claims, hs);
    } else {
      AlwaysGranted(inp, x, claims, hs, k - 1);
      assert v.actions[k - 1] == inp.actions[k - 1];
      StaysGranted(inp, x, Base(v, k - 1), inp.actions[k - 1]);
    }
  }

  lemma FirstGranted(inp: Input, x: Turn, claims: seq<InitialFact>, hs: seq<Historical>)
    requires x.t <= |inp.actions|
    ensures Granted(inp, x, CaseOf(inp, x, claims, hs).env) && Granted(inp, x, Reconcile(CaseOf(inp, x, claims, hs).env))
  {
    hide Reconcile, FreshName;
    ReconcileOnlyPods(CaseOf(inp, x, claims, hs).env);
  }

  // ---------------------------------------------------------------- the engine gets nowhere

  /** From the interval of the first account's Pod on, its tokens are stored, fresh until time passes. */
  ghost predicate Stocked(st: Static, x: Turn, time: int, s: State)
    requires st.api != []
  {
    forall aud :: aud in Audiences(st, x.p) ==>
      var id := Projected(x.u, aud); id in s.creds && s.creds[id].expires.Some? && s.creds[id].expires.value >= time + st.ttl
  }

  lemma StaysStocked(ctx: Ctx, x: Turn, s: State, t: State)
    requires ctx.Valid() && Saturates(ctx, s, t) && Stocked(ctx.st, x, s.env.time, s)
    ensures Stocked(ctx.st, x, s.env.time, t)
  {
    hide Closed;
    var fs :| FireAll(ctx, s, fs) == Some(t);
    FiringsRetain(ctx, s, fs);
  }

  lemma GetsStocked(ctx: Ctx, x: Turn, s: State)
    requires ctx.Valid() && Closed(ctx, s) && Stuck(ctx.st, x.u, x.p.Acct(), s) && x.u in s.env.pods && s.env.pods[x.u] == x.p && x.p.Acct() in s.env.sas
    ensures Stocked(ctx.st, x, s.env.time, s)
  {
    forall aud | aud in Audiences(ctx.st, x.p)
      ensures TokenCurrent(ctx, s, x.u, aud)
    {
      assert !Ready(ctx, s, FireToken(x.u, aud));
    }
  }

  /** At the turn the stored tokens are in the way. */
  lemma ClashHarmless(ctx: Ctx, x: Turn, e: Env, s: State)
    requires ctx.Valid() && Clashes(ctx.st, e, s.env, x.u) && e.pods[x.u] == x.p && Stocked(ctx.st, x, s.env.time, s)
    ensures Harmless(ctx, x.u, x.p.Acct(), s)
  {
    hide Audiences;
  }

  // ---------------------------------------------------------------- over the whole run

  /** What the engine has at the end of interval `m`. */
  ghost predicate StuckAt(inp: Input, x: Turn, v: Input, i: int, time: int, m: nat, s: State)
    requires v.st.api != [] && m <= |v.actions|
  {
    Stuck(v.st, x.u, x.p.Acct(), s) && s.env == Base(v, m) && (i <= m ==> Stocked(v.st, x, time, s))
  }

  lemma StageStuck(inp: Input, view: Perspective, x: Turn, v: Input, i: int, time: int, m: nat, before: State, s: State)
    requires WellFormed(inp) && WellFormed(v) && Varies(inp, v) && -1 <= i < x.t == |v.actions| && Turns(inp, view, i, x) && m <= x.t
    requires Granted(inp, x, Base(v, m)) && Stuck(v.st, x.u, x.p.Acct(), before) && before.env == Base(v, m) && time == Era(inp, view, i).time
    requires i < m ==> Stocked(v.st, x, time, before)
    requires Saturates(Ctx(v.st, Now, m), before, s)
    ensures StuckAt(inp, x, v, i, time, m, s)
  {
    hide Stuck, Stocked, Granted, Base, Saturates, Plain, Clashes, HistoryEnv;
    var ctx := Ctx(v.st, Now, m);
    ValidStatic(v);
    SameBases(inp, v, m);
    if m == x.t {
      ClashNow(inp, v, view, i, x, m);
      ClashHarmless(ctx, x, Era(inp, view, i), before);
    } else {
      assert Harmless(ctx, x.u, x.p.Acct(), before);
    }
    GrantedOnly(inp, x, before.env);
    SaturationStuck(ctx, x.u, x.p.Acct(), x.b, before, s);
    if i < m {
      ClashHomes(inp.st, Era(inp, view, i), Base(inp, x.t), x);
      TimesBetween(inp, view, i, m, x.t);
      StaysStocked(ctx, x, before, s);
    } else if i == m {
      assert Era(inp, view, i) == Base(inp, m) by { EraIsBase(inp, view, m); }
      ClashHomes(inp.st, Era(inp, view, i), Base(inp, x.t), x);
      StocksUp(ctx, x, before, s);
    }
  }

  lemma StocksUp(ctx: Ctx, x: Turn, before: State, s: State)
    requires ctx.Valid() && Saturates(ctx, before, s) && Stuck(ctx.st, x.u, x.p.Acct(), s) && s.env == before.env
    requires x.u in s.env.pods && s.env.pods[x.u] == x.p && x.p.Acct() in s.env.sas
    ensures Stocked(ctx.st, x, s.env.time, s)
  {
    hide Closed, Stuck, Stocked;
    GetsStocked(ctx, x, s);
  }

  lemma ClashNow(inp: Input, v: Input, view: Perspective, i: int, x: Turn, m: nat)
    requires inp.st.api == v.st.api != [] && -1 <= i < x.t == m <= |v.actions| <= |inp.actions| && Turns(inp, view, i, x) && SameObjects(Base(v, m), Base(inp, m))
    ensures Clashes(v.st, Era(inp, view, i), Base(v, m), x.u) && Era(inp, view, i).pods[x.u] == x.p && Era(inp, view, i).time == Base(v, m).time
  {
    hide Base, HistoryEnv;
    SameClash(v.st, inp.st, Era(inp, view, i), Base(v, m), Era(inp, view, i), Base(inp, m), x.u);
  }

  lemma ClashHomes(st: Static, e: Env, f: Env, x: Turn)
    requires st.api != [] && Clashes(st, e, f, x.u) && e.pods[x.u] == x.p
    ensures x.p.Acct() in e.sas && e.time == f.time
  {
  }

  lemma {:induction false} StagesStuck(inp: Input, view: Perspective, x: Turn, claims: seq<InitialFact>, hs: seq<Historical>, i: int, start: State, stages: seq<State>, m: nat)
    requires WellFormed(inp) && -1 <= i < x.t <= |inp.actions| && Turns(inp, view, i, x) && Claims(inp, view, i, x, claims, hs) && m <= x.t
    requires inp.st.api != [] && Ladder(CaseOf(inp, x, claims, hs), Now, start, stages)
    requires var v := CaseOf(inp, x, claims, hs); Stuck(v.st, x.u, x.p.Acct(), start) && start.env == Reconcile(v.env) && (i == -1 ==> Stocked(v.st, x, Era(inp, view, i).time, start))
    ensures StuckAt(inp, x, CaseOf(inp, x, claims, hs), i, Era(inp, view, i).time, m, stages[m])
    decreases m
  {
    hide Stuck, Stocked, Turns, Claims, Granted, Saturates, Plain, Reconcile, Defend, HistoryEnv, FreshName;
    var v := CaseOf(inp, x, claims, hs);
    CaseWellFormed(inp, view, i, x, claims, hs);
    AlwaysGranted(inp, x, claims, hs, m);
    if m == 0 {
      StageStuck(inp, view, x, v, i, Era(inp, view, i).time, 0, start, stages[0]);
    } else {
      StagesStuck(inp, view, x, claims, hs, i, start, stages, m - 1);
      var before := NextState(stages[m - 1], v.actions[m - 1]);
      SameTables(v.st, x.u, x.p.Acct(), stages[m - 1], before);
      StillStocked(v.st, x, Era(inp, view, i).time, stages[m - 1], before);
      assert Saturates(Ctx(v.st, Now, (m - 1) + 1), before, stages[(m - 1) + 1]);
      StageStuck(inp, view, x, v, i, Era(inp, view, i).time, m, before, stages[m]);
    }
  }

  lemma StillStocked(st: Static, x: Turn, time: int, s: State, t: State)
    requires st.api != [] && t.creds == s.creds
    ensures Stocked(st, x, time, s) ==> Stocked(st, x, time, t)
  {
  }

  // ---------------------------------------------------------------- how the run begins

  lemma InitialOnly(inp: Input, view: Perspective, i: int, x: Turn, claims: seq<InitialFact>, hs: seq<Historical>)
    requires x.t <= |inp.actions| && Claims(inp, view, i, x, claims, hs)
    ensures var v := CaseOf(inp, x, claims, hs);
      && InitialState(v, view, Full) == State(v.env, map[], if i == -1 then map[] else map[ControlsPod(x.u) := EVIDENCE], map[])
      && HistoricalPods(v, view, Full) == (if i == -1 then {x.u} else {})
  {
    hide FreshName;
    var v := CaseOf(inp, x, claims, hs);
    if i != -1 {
      assert claims[0] in claims && Kept(claims[0], view, Full);
      assert InitialFacts(v, view, Full) == {ControlsPod(x.u)};
    } else {
      assert hs[0] in hs;
      assert InitialFacts(v, view, Full) == {};
    }
  }

  lemma InitialStuck(inp: Input, view: Perspective, i: int, x: Turn, claims: seq<InitialFact>, hs: seq<Historical>)
    requires x.t <= |inp.actions| && Claims(inp, view, i, x, claims, hs) && (i == -1 ==> view.ConservativePossible?) && inp.st.api != []
    ensures var v := CaseOf(inp, x, claims, hs);
      && HistoryRuns(v, view, Full) == (i == -1)
      && (i == -1 ==> Stuck(v.st, x.u, x.p.Acct(), HistoryStart(v, view, Full)) && HistoryStart(v, view, Full).env == HistoryEnv(v, view, Full))
      && (i != -1 ==> Stuck(v.st, x.u, x.p.Acct(), MainStart(v, InitialState(v, view, Full))))
      && x.u in (if i == -1 then View(HistoryStart(v, view, Full)).att.pods else View(InitialState(v, view, Full)).att.pods)
  {
    hide FreshName, HistoryEnv, Reconcile, InitialState, HistoricalPods;
    InitialOnly(inp, view, i, x, claims, hs);
    var v := CaseOf(inp, x, claims, hs);
    if i == -1 {
      var s := HistoryStart(v, view, Full);
      assert HistoricalFacts(v, view, Full) == {ControlsPod(x.u)};
      assert ControlsPod(x.u) in s.facts;
    } else {
      assert ControlsPod(x.u) in InitialState(v, view, Full).facts;
    }
  }

  lemma HistoryStuck(inp: Input, view: Perspective, x: Turn, claims: seq<InitialFact>, hs: seq<Historical>, h: State)
    requires WellFormed(inp) && x.t <= |inp.actions| && Turns(inp, view, -1, x) && Claims(inp, view, -1, x, claims, hs) && view.ConservativePossible?
    requires var v := CaseOf(inp, x, claims, hs);
      inp.st.api != [] && Saturates(Ctx(v.st, HistoryRule(v, Full), -1), HistoryStart(v, view, Full), h)
    ensures var v := CaseOf(inp, x, claims, hs); Stuck(v.st, x.u, x.p.Acct(), h) && Stocked(v.st, x, Era(inp, view, -1).time, h)
  {
    hide FreshName, HistoryEnv, Base, Stuck, Stocked, Granted, Saturates, Clashes, Plain, HistoryStart, View, HistoryRuns;
    var v := CaseOf(inp, x, claims, hs);
    var ctx := Ctx(v.st, HistoryRule(v, Full), -1);
    CaseWellFormed(inp, view, -1, x, claims, hs);
    ValidStatic(v);
    InitialStuck(inp, view, -1, x, claims, hs);
    HistoryGranted(inp, view, x, claims, hs);
    HistoryHere(inp, v, view, x);
    assert Harmless(ctx, x.u, x.p.Acct(), HistoryStart(v, view, Full));
    GrantedOnly(inp, x, HistoryEnv(v, view, Full));
    SaturationStuck(ctx, x.u, x.p.Acct(), x.b, HistoryStart(v, view, Full), h);
    ClashHomes(inp.st, Era(inp, view, -1), Base(inp, x.t), x);
    HistoryTimes(inp, view);
    HistoryTimes(v, view);
    StocksUp(ctx, x, HistoryStart(v, view, Full), h);
  }

  lemma HistoryGranted(inp: Input, view: Perspective, x: Turn, claims: seq<InitialFact>, hs: seq<Historical>)
    requires x.t <= |inp.actions|
    ensures Granted(inp, x, HistoryEnv(CaseOf(inp, x, claims, hs), view, Full))
  {
    hide FreshName;
  }

  lemma HistoryHere(inp: Input, v: Input, view: Perspective, x: Turn)
    requires WellFormed(inp) && Varies(inp, v) && x.t <= |inp.actions| && inp.st.api != [] && -1 < x.t && Turns(inp, view, -1, x)
    requires exists h :: h in v.historical && KeptHistorical(h, view, Full) && h.uid == x.u
    ensures x.u in HistoryEnv(v, view, Full).pods && HistoryEnv(v, view, Full).pods[x.u] == x.p
  {
    hide Base, Clashes;
    SameHistory(inp, v, view, x.u);
  }

  lemma StartStuck(inp: Input, view: Perspective, i: int, x: Turn, claims: seq<InitialFact>, hs: seq<Historical>, start: State)
    requires WellFormed(inp) && -1 <= i < x.t <= |inp.actions| && Turns(inp, view, i, x) && Claims(inp, view, i, x, claims, hs)
    requires (i == -1 ==> view.ConservativePossible?) && inp.st.api != [] && StartsMain(CaseOf(inp, x, claims, hs), view, Full, start)
    ensures var v := CaseOf(inp, x, claims, hs);
      Stuck(v.st, x.u, x.p.Acct(), start) && start.env == Reconcile(v.env) && (i == -1 ==> Stocked(v.st, x, Era(inp, view, i).time, start))
  {
    hide FreshName, HistoryEnv, Stuck, Stocked, Saturates, Plain, HistoryStart, InitialState, View, HistoryRuns, Turns, Claims, Reconcile;
    var v := CaseOf(inp, x, claims, hs);
    InitialStuck(inp, view, i, x, claims, hs);
    if i == -1 {
      var h :| Saturates(Ctx(v.st, HistoryRule(v, Full), -1), HistoryStart(v, view, Full), h) && start == MainStart(v, h);
      HistoryStuck(inp, view, x, claims, hs, h);
      SameTables(v.st, x.u, x.p.Acct(), h, start);
      StillStocked(v.st, x, Era(inp, view, i).time, h, start);
    }
  }

  /** No run of the engine on the case reports the Secret. */
  lemma EngineMisses(inp: Input, view: Perspective, i: int, x: Turn, claims: seq<InitialFact>, hs: seq<Historical>, stages: seq<State>)
    requires WellFormed(inp) && -1 <= i < x.t <= |inp.actions| && Turns(inp, view, i, x) && Claims(inp, view, i, x, claims, hs)
    requires (i == -1 ==> view.ConservativePossible?) && inp.st.api != [] && EngineRun(CaseOf(inp, x, claims, hs), view, Full, stages)
    ensures !Reported(CaseOf(inp, x, claims, hs), stages, NoSecretRead(PRIZE))
  {
    hide FreshName, HistoryEnv, Stocked, Saturates, Plain, HistoryStart, InitialState, View, HistoryRuns, Turns, Claims, Reconcile, StartsMain;
    var v := CaseOf(inp, x, claims, hs);
    var start :| StartsMain(v, view, Full, start) && Ladder(v, Now, start, stages);
    StartStuck(inp, view, i, x, claims, hs, start);
    StagesStuck(inp, view, x, claims, hs, i, start, stages, x.t);
  }

  // ---------------------------------------------------------------- the attack

  /** The attacker may let the defender go first. */
  lemma {:induction false} Waits(inp: Input, a: Att, k: nat) returns (moves: seq<Move>)
    requires inp.st.api != [] && k <= |inp.actions|
    ensures Run(inp.st, Now, inp.actions, Stage(0, World(Reconcile(inp.env), a)), moves) == Some(Stage(k, World(Base(inp, k), a)))
    decreases k
  {
    hide Reconcile, Defend;
    if k == 0 {
      moves := [];
    } else {
      var before := Waits(inp, a, k - 1);
      RunExtend(inp.st, Now, inp.actions, Stage(0, World(Reconcile(inp.env), a)), before, Defender);
      moves := before + [Defender];
    }
  }

  lemma TokenReads(inp: Input, st: Static, x: Turn, e: Env, a: Att, aud: string)
    requires st.Valid() && st.roles == ROLES && Granted(inp, x, e)
    requires x.u in a.pods && x.u in e.pods && e.pods[x.u].Acct() == x.b && x.b in e.sas && aud in Audiences(st, e.pods[x.u]) && aud in st.api
    ensures Enabled(st, Now, World(e, a), Obtain(x.u, aud))
    ensures Violated(st, Now, Do(st, World(e, a), Obtain(x.u, aud)), NoSecretRead(PRIZE))
  {
    hide Audiences;
    var c := Token(st, e, x.u, aud);
    TokenUsable(st, e, x.u, aud);
    ReaderReads(st, e.bindings, Opening(inp), x.b, PRIZE);
    assert c in Do(st, World(e, a), Obtain(x.u, aud)).att.creds;
  }

  lemma AttackWorks(inp: Input, view: Perspective, i: int, x: Turn, claims: seq<InitialFact>, hs: seq<Historical>)
    requires WellFormed(inp) && -1 <= i < x.t <= |inp.actions| && Turns(inp, view, i, x) && Claims(inp, view, i, x, claims, hs)
    requires (i == -1 ==> view.ConservativePossible?) && inp.st.api != []
    ensures Attainable(CaseOf(inp, x, claims, hs), view, NoSecretRead(PRIZE))
  {
    hide FreshName, HistoryEnv, Plain, HistoryRuns, InitialState, HistoryStart, Claims, Reconcile, Run, Violated, Granted, Enabled, Do, Base, Audiences, HistoryGain;
    var v := CaseOf(inp, x, claims, hs);
    CaseWellFormed(inp, view, i, x, claims, hs);
    ValidStatic(v);
    var a := Beginning(inp, view, i, x, claims, hs);
    var moves := Waits(v, a, x.t);
    SameBases(inp, v, x.t);
    AlwaysGranted(inp, x, claims, hs, x.t);
    var aud := ClashAudience(inp.st, Era(inp, view, i), Base(inp, x.t), x);
    SameAudiences(v.st, inp.st, Base(inp, x.t).pods[x.u]);
    TokenReads(inp, v.st, x, Base(v, x.t), a, aud);
    RunExtend(v.st, Now, v.actions, Stage(0, World(Reconcile(v.env), a)), moves, Attacker(Obtain(x.u, aud)));
    assert AttainedBy(v, view, a, moves + [Attacker(Obtain(x.u, aud))], NoSecretRead(PRIZE));
  }

  lemma SameAudiences(st: Static, vt: Static, p: Pod)
    requires st.api == vt.api != []
    ensures Audiences(st, p) == Audiences(vt, p)
  {
  }

  lemma ClashAudience(st: Static, e: Env, f: Env, x: Turn) returns (aud: string)
    requires st.api != [] && Clashes(st, e, f, x.u) && f.pods[x.u].Acct() == x.b
    ensures aud in Audiences(st, f.pods[x.u]) && aud in st.api && x.b in f.sas
  {
    aud :| aud in Audiences(st, f.pods[x.u]) && aud in st.api;
  }

  /** What the attacker of the case starts with: the one UID. */
  lemma Beginning(inp: Input, view: Perspective, i: int, x: Turn, claims: seq<InitialFact>, hs: seq<Historical>) returns (a: Att)
    requires WellFormed(inp) && -1 <= i < x.t <= |inp.actions| && Turns(inp, view, i, x) && Claims(inp, view, i, x, claims, hs)
    requires (i == -1 ==> view.ConservativePossible?) && inp.st.api != []
    ensures HistoryGain(CaseOf(inp, x, claims, hs), view, a) && x.u in a.pods
  {
    hide FreshName, HistoryEnv, Plain, HistoryRuns, InitialState, HistoryStart, Turns, Claims, HistoryReach, RunActs;
    var v := CaseOf(inp, x, claims, hs);
    InitialStuck(inp, view, i, x, claims, hs);
    if i == -1 {
      var w := HistoryWorld(v, view);
      a := w.att;
      NoActs(v.st, Window(v.historyStart), w);
      ReachByActs(v, view, [], w);
    } else {
      a := View(InitialState(v, view, Full)).att;
    }
  }

  lemma CaseIsMissed(inp: Input, view: Perspective, i: int, x: Turn, claims: seq<InitialFact>, hs: seq<Historical>)
    requires WellFormed(inp) && -1 <= i < x.t <= |inp.actions| && Turns(inp, view, i, x) && Claims(inp, view, i, x, claims, hs)
    requires (i == -1 ==> view.ConservativePossible?) && inp.st.api != []
    ensures Missed(CaseOf(inp, x, claims, hs), view, NoSecretRead(PRIZE))
  {
    hide EngineRun, Attainable, Turns, Claims, CaseOf, Plain;
    var v := CaseOf(inp, x, claims, hs);
    CaseWellFormed(inp, view, i, x, claims, hs);
    CaseParses(v);
    AttackWorks(inp, view, i, x, claims, hs);
    var run := RunExists(v, view, Full);
    forall stages | EngineRun(v, view, Full, stages)
      ensures !Reported(v, stages, NoSecretRead(PRIZE))
    {
      EngineMisses(inp, view, i, x, claims, hs, stages);
    }
  }

  lemma CaseParses(v: Input)
    requires WellFormed(v)
    ensures Parsed(v)
  {
  }

  // ---------------------------------------------------------------- the theorem

  /** Every clash makes the engine miss an attack, on some case over the same inventory, historical
      Pods and actions up to the clash. */
  lemma ClashIsMissed(inp: Input, view: Perspective) returns (v: Input, obj: Objective)
    requires WellFormed(inp) && !ClashFree(inp, view)
    ensures Varies(inp, v) && WellFormed(v) && Missed(v, view, obj)
  {
    hide Base, HistoryEnv, Plain, HistoryRuns, Clashes, FreshName, EngineRun, Attainable, Turns;
    ValidStatic(inp);
    var i0, j, u := SomeClash(inp, view);
    var i, x := ClashTurns(inp, view, i0, j, u);
    if i == -1 { OnlyPossible(inp, view); }
    var claims, hs := SomeClaims(inp, view, i, x);
    v, obj := CaseOf(inp, x, claims, hs), NoSecretRead(PRIZE);
    CaseWellFormed(inp, view, i, x, claims, hs);
    CaseIsMissed(inp, view, i, x, claims, hs);
  }

  lemma SomeClash(inp: Input, view: Perspective) returns (i: int, j: nat, u: Uid)
    requires WellFormed(inp) && inp.st.api != [] && !ClashFree(inp, view)
    ensures FirstEra(HistoryRuns(inp, view, Full)) <= i < j <= |inp.actions| && Clashes(inp.st, Era(inp, view, i), Era(inp, view, j), u)
  {
    hide Clashes, Era, Plain, HistoryRuns;
    i, j, u :| FirstEra(HistoryRuns(inp, view, Full)) <= i < j <= |inp.actions| && Clashes(inp.st, Era(inp, view, i), Era(inp, view, j), u);
  }

  lemma OnlyPossible(inp: Input, view: Perspective)
    requires HistoryRuns(inp, view, Full)
    ensures view.ConservativePossible?
  {
  }

  lemma SomeClaims(inp: Input, view: Perspective, i: int, x: Turn) returns (claims: seq<InitialFact>, hs: seq<Historical>)
    requires inp.st.api != [] && -1 <= i < x.t <= |inp.actions| && Turns(inp, view, i, x)
    ensures Claims(inp, view, i, x, claims, hs)
  {
    hide Base, HistoryEnv, Clashes;
    if i == -1 {
      var h :| h in inp.historical && KeptHistorical(h, view, Full) && h.uid == x.u;
      claims, hs := [], [h];
    } else {
      claims, hs := [InitialFact(ClaimPod(x.u), Observed)], [];
    }
  }

  /** The engine never misses an attack, whatever facts, credentials, roles, bindings, policies,
      Secrets, services and objectives come with the inventory, and at whatever interval one looks,
      exactly when no two Pods clash. */
  lemma NoClashIsExact(inp: Input, view: Perspective)
    requires WellFormed(inp)
    ensures ClashFree(inp, view) <==> NeverMisses(inp, view)
  {
    hide EngineRun, Attainable, ClashFree, Varies, NothingReserved, OwnIds, OneHistory, Reported;
    if ClashFree(inp, view) {
      forall v, stages | Varies(inp, v) && WellFormed(v) && EngineRun(v, view, Full, stages)
        ensures ReportsAll(v, view, stages)
      {
        ClashFreeVaries(inp, v, view);
        AllReported(v, view, stages);
      }
    } else {
      var v, obj := ClashIsMissed(inp, view);
      var stages :| EngineRun(v, view, Full, stages);
      assert !ReportsAll(v, view, stages) by { assert Attainable(v, view, obj) && !Reported(v, stages, obj); }
    }
  }

  lemma RunLength(v: Input, view: Perspective, stages: seq<State>)
    requires v.st.api != [] && EngineRun(v, view, Full, stages)
    ensures |stages| == |v.actions| + 1
  {
    hide StartsMain, Saturates;
  }

  lemma AllReported(v: Input, view: Perspective, stages: seq<State>)
    requires WellFormed(v) && ClashFree(v, view) && EngineRun(v, view, Full, stages)
    ensures ReportsAll(v, view, stages)
  {
    hide EngineRun, ClashFree, Plain, Run, HistoryGain, Violated, Reconcile;
    ValidStatic(v);
    assert |stages| == |v.actions| + 1 by { RunLength(v, view, stages); }
    forall obj | Attainable(v, view, obj)
      ensures Reported(v, stages, obj)
    {
      var a, moves :| AttainedBy(v, view, a, moves, obj);
      EngineSound(v, view, Full, stages, a, moves, obj);
    }
  }
}
