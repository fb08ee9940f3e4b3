/** An attacker cut off stays cut off: once no credential held is usable, no controlled Pod can
    yield a token and no controlled controller is left, nothing changes that. */
module DeadAttacker {
  import opened Model
  import opened Semantics
  import opened Attack
  import opened Rules
  import opened Shape
  import opened Cover
  import opened Fixpoint
  import opened Case
  import opened Interleavings
  import opened Exactness
  import opened PastSupport

  /** Nothing the attacker holds gets it any further. */
  ghost predicate Dead(st: Static, w: World) {
    && (forall c :: c in w.att.creds ==> !CanUse(st, w.env, c, Now))
    && (forall u :: u in w.att.pods && u in w.env.pods ==> w.env.pods[u].Acct() !in w.env.sas)
    && (forall c :: c in w.att.ctrls ==> c !in w.env.ctrls)
  }

  /** No later replacement of a native controller will be given this UID. */
  predicate Spent(e: Env, u: Uid) {
    u.Replica? && !Created(u) && u.owner in e.ctrls ==> u.owner in e.counters && u.k <= e.counters[u.owner]
  }

  ghost predicate AllSpent(e: Env, a: Att) {
    && (forall u :: u in e.pods ==> Spent(e, u))
    && (forall u :: u in a.pods ==> Spent(e, u))
    && (forall c :: c in a.creds && c.boundPod.Some? ==> Spent(e, c.boundPod.value))
  }

  /** No UID in the input looks like a replacement its controllers could still hand out. */
  ghost predicate ReplicaFresh(inp: Input) {
    && HistoryApart(inp)
    && (forall u :: u in inp.env.pods && u.Replica? ==> u.owner !in inp.env.ctrls)
    && (forall f :: f in inp.facts && f.claim.ClaimPod? && f.claim.pod.Replica? ==> f.claim.pod.owner !in inp.env.ctrls)
    && (forall id :: id in inp.credentials && inp.credentials[id].boundPod.Some? && inp.credentials[id].boundPod.value.Replica? ==>
          inp.credentials[id].boundPod.value.owner !in inp.env.ctrls)
  }

  // ---------------------------------------------------------------- UIDs stay spent

  lemma DefendSpent(e: Env, a: Action, u: Uid)
    requires Spent(e, u)
    ensures Spent(Defend(e, a), u)
  {
    DefendShrinks(e, a);
    DefendCounters(e, a);
  }

  lemma DefendCounters(e: Env, a: Action)
    ensures Defend(e, a).counters == e.counters
  {
  }

  lemma ReconcileSpent(e: Env, u: Uid)
    requires Spent(e, u)
    ensures Spent(Reconcile(e), u)
  {
    hide Reconcile;
    ReconcileNumbersRise(e);
    ReconcileOnlyPods(e);
  }

  lemma NextSpent(e: Env, a: Action, u: Uid)
    requires Spent(e, u)
    ensures Spent(NextBase(e, a), u)
  {
    hide Reconcile, Defend, Spent;
    DefendSpent(e, a, u);
    ReconcileSpent(Defend(e, a), u);
  }

  lemma NewSpent(e: Env, u: Uid)
    requires u in Reconcile(e).pods && u !in e.pods
    ensures Spent(Reconcile(e), u) && !(u.owner in e.ctrls && Spent(e, u) && !Created(u))
  {
    hide Reconcile;
    ReconcileNumbersRise(e);
    ReconcileKeepsPods(e);
  }

  lemma NextPodsSpent(e: Env, a: Action)
    requires forall u :: u in e.pods ==> Spent(e, u)
    ensures forall u :: u in NextBase(e, a).pods ==> Spent(NextBase(e, a), u)
  {
    hide Reconcile, Defend, Spent;
    var d := Defend(e, a);
    DefendShrinks(e, a);
    forall u | u in Reconcile(d).pods
      ensures Spent(Reconcile(d), u)
    {
      if u in d.pods { NextSpent(e, a, u); } else { NewSpent(d, u); }
    }
  }

  lemma NextAllSpent(e: Env, a: Action, att: Att)
    requires AllSpent(e, att)
    ensures AllSpent(NextBase(e, a), att)
  {
    hide NextBase, Spent;
    NextPodsSpent(e, a);
    forall u | Spent(e, u)
      ensures Spent(NextBase(e, a), u)
    {
      NextSpent(e, a, u);
    }
  }

  /** An attacker step only ever takes hold of Pods that exist. */
  lemma StepAllSpent(st: Static, w: World, act: Act, base: Env)
    requires st.api != [] && Inv(base, w) && Reconciled(base) && AllSpent(base, w.att) && Enabled(st, Now, w, act)
    ensures AllSpent(base, Do(st, w, act).att)
  {
    hide CanUse, MayCreate, CanRead, Shaped, Authorized, WithPod, WithCtrl;
    if act.Obtain? || act.Own? || act.Exec? {
      if !Created(act.pod) { LiveNative(base, w.env, act.pod); }
    }
  }

  lemma LiveNative(base: Env, e: Env, u: Uid)
    requires EnvInv(base, e) && Reconciled(base) && u in e.pods && !Created(u)
    ensures u in base.pods && base.pods[u] == e.pods[u]
  {
    hide Shaped, Reconcile, Reconciled;
    ReconcileIdempotent(base);
    assert u in Native(e).pods && Native(e).pods[u] == e.pods[u];
  }

  // ---------------------------------------------------------------- over a run

  ghost predicate StageSpent(inp: Input, s: Stage) {
    && s.phase <= |inp.actions| && EnvInv(Base(inp, s.phase), s.world.env) && Reconciled(Base(inp, s.phase))
    && AllSpent(Base(inp, s.phase), s.world.att) && CreatedHeld(s.world) && OwnersLive(Base(inp, s.phase))
  }

  /** Every controller the attacker created is under its control. */
  ghost predicate CreatedHeld(w: World) { forall c :: c in w.env.ctrls && Created(c) ==> c in w.att.ctrls }

  ghost predicate OwnersLive(e: Env) {
    forall u :: u in e.pods && e.pods[u].owner.Some? ==> e.pods[u].owner.value in e.ctrls
  }

  lemma NextOwnersLive(e: Env, a: Action)
    requires OwnersLive(e)
    ensures OwnersLive(NextBase(e, a))
  {
    hide Reconcile, Text;
    DefendOwnersLive(e, a);
    var d := Defend(e, a);
    ReconcileKeepsPods(d);
    ReconcileOnlyPods(d);
  }

  lemma DefendOwnersLive(e: Env, a: Action)
    requires OwnersLive(e)
    ensures OwnersLive(Defend(e, a))
  {
  }

  lemma StepCreatedHeld(st: Static, w: World, act: Act)
    requires CreatedHeld(w)
    ensures CreatedHeld(Do(st, w, act))
  {
    hide Reconcile, Text;
    if act.NewCtrl? { ReconcileOnlyPods(Unreconciled(w.env, act.account, act.uid, act.fromZero)); }
  }

  lemma DefendCreatedHeld(w: World, a: Action)
    requires CreatedHeld(w)
    ensures CreatedHeld(DefendWorld(w, a))
  {
    hide Reconcile, Defend;
    DefendShrinks(w.env, a);
    ReconcileOnlyPods(Defend(w.env, a));
  }

  lemma MoveSpent(inp: Input, s: Stage, m: Move, t: Stage)
    requires WellFormed(inp) && StageSpent(inp, s) && DoMove(inp.st, Now, inp.actions, s, m) == Some(t)
    ensures StageSpent(inp, t)
  {
    hide EnvInv, Reconcile, Reconciled, AllSpent, CreatedHeld, OwnersLive, NextBase, Do, Enabled, Defend;
    var base := Base(inp, s.phase);
    match m {
      case Attacker(act) =>
        StepAllSpent(inp.st, s.world, act, base);
        StepKeepsInv(inp.st, Now, base, s.world, act);
        StepCreatedHeld(inp.st, s.world, act);
      case Defender =>
        var a := inp.actions[s.phase];
        DefendKeepsInv(base, s.world, a);
        NextAllSpent(base, a, s.world.att);
        DefendCreatedHeld(s.world, a);
        NextOwnersLive(base, a);
    }
  }

  lemma {:induction false} RunSpent(inp: Input, s: Stage, moves: seq<Move>)
    requires WellFormed(inp) && StageSpent(inp, s) && Run(inp.st, Now, inp.actions, s, moves).Some?
    ensures StageSpent(inp, Run(inp.st, Now, inp.actions, s, moves).value)
  {
    hide StageSpent, DoMove;
    if moves != [] {
      RunSpent(inp, s, moves[..|moves| - 1]);
      MoveSpent(inp, Run(inp.st, Now, inp.actions, s, moves[..|moves| - 1]).value, moves[|moves| - 1], Run(inp.st, Now, inp.actions, s, moves).value);
    }
  }

  // ---------------------------------------------------------------- the start

  /** A UID held from history that looks like a replacement is today's replacement. */
  predicate Todays(inp: Input, u: Uid) {
    u.Replica? && !Created(u) && u.owner in inp.env.ctrls ==> u in Reconcile(inp.env).pods
  }

  ghost predicate AllTodays(inp: Input, w: World) {
    && (forall u :: u in w.att.pods ==> Todays(inp, u))
    && (forall c :: c in w.att.creds && c.boundPod.Some? ==> Todays(inp, c.boundPod.value))
  }

  lemma TodaySpent(inp: Input, u: Uid)
    requires ReplicaFresh(inp) && Todays(inp, u)
    ensures Spent(Reconcile(inp.env), u)
  {
    hide Reconcile;
    ReconcileOnlyPods(inp.env);
    if u.Replica? && !Created(u) && u.owner in inp.env.ctrls {
      assert u !in inp.env.pods;
      NewSpent(inp.env, u);
    }
  }

  lemma LiveInHistory(inp: Input, view: Perspective, e: Env, u: Uid)
    requires ReplicaFresh(inp) && EnvInv(HistoryEnv(inp, view, Full), e) && u in e.pods
    ensures Todays(inp, u)
  {
    hide Reconcile, HistoryEnv, PastEnv, Shaped;
    if !Created(u) {
      NativeSupported(inp, view, e, u);
      PastPods(inp, u);
    }
  }

  lemma HistoryStepTodays(inp: Input, view: Perspective, w: World, act: Act)
    requires inp.st.api != [] && ReplicaFresh(inp) && Inv(HistoryEnv(inp, view, Full), w) && AllTodays(inp, w)
    requires Enabled(inp.st, Window(inp.historyStart), w, act)
    ensures AllTodays(inp, Do(inp.st, w, act))
  {
    hide CanUse, MayCreate, CanRead, Authorized, WithPod, WithCtrl, Reconcile, HistoryEnv, ReplicaFresh, EnvInv;
    if act.Obtain? || act.Own? || act.Exec? { LiveInHistory(inp, view, w.env, act.pod); }
  }

  lemma {:induction false} HistoryTodays(inp: Input, view: Perspective, acts: seq<Act>)
    requires WellFormed(inp) && ReplicaFresh(inp) && RunActs(inp.st, Window(inp.historyStart), HistoryWorld(inp, view), acts).Some?
    ensures var w := RunActs(inp.st, Window(inp.historyStart), HistoryWorld(inp, view), acts).value;
      Inv(HistoryEnv(inp, view, Full), w) && AllTodays(inp, w)
  {
    hide HistoryWorld, HistoryEnv, AllTodays, ReplicaFresh, EnvInv, Enabled, Do, Plain;
    NonEmptyApi(inp);
    if acts == [] {
      HistoryStartTodays(inp, view);
    } else {
      HistoryTodays(inp, view, acts[..|acts| - 1]);
      var w := RunActs(inp.st, Window(inp.historyStart), HistoryWorld(inp, view), acts[..|acts| - 1]).value;
      HistoryStepTodays(inp, view, w, acts[|acts| - 1]);
      StepKeepsInv(inp.st, Window(inp.historyStart), HistoryEnv(inp, view, Full), w, acts[|acts| - 1]);
    }
  }

  lemma HistoryStartTodays(inp: Input, view: Perspective)
    requires WellFormed(inp) && ReplicaFresh(inp)
    ensures Inv(HistoryEnv(inp, view, Full), HistoryWorld(inp, view)) && AllTodays(inp, HistoryWorld(inp, view))
  {
    hide HistoryEnv, EnvInv, Reconcile;
    HistoryGood(inp, view, Full);
    HistorySame(inp, view, Full);
    InputTodays(inp, view);
  }

  lemma InputTodays(inp: Input, view: Perspective)
    requires ReplicaFresh(inp)
    ensures forall u :: ControlsPod(u) in HistoryStart(inp, view, Full).facts ==> Todays(inp, u)
    ensures forall id :: id in HistoryStart(inp, view, Full).creds && HistoryStart(inp, view, Full).creds[id].boundPod.Some? ==>
      Todays(inp, HistoryStart(inp, view, Full).creds[id].boundPod.value)
  {
    hide Reconcile;
    var s := HistoryStart(inp, view, Full);
    forall u | ControlsPod(u) in s.facts
      ensures Todays(inp, u)
    {
      if ControlsPod(u) in HistoricalFacts(inp, view, Full) {
        var h :| h in inp.historical && KeptHistorical(h, view, Full) && h.uid == u;
      } else {
        var f :| f in inp.facts && Kept(f, view, Full) && FactOf(f.claim) == ControlsPod(u);
        assert f.claim == ClaimPod(u);
      }
    }
  }

  lemma GainTodays(inp: Input, view: Perspective, a: Att)
    requires WellFormed(inp) && ReplicaFresh(inp) && inp.st.api != [] && HistoryGain(inp, view, a)
    ensures (forall u :: u in a.pods ==> Todays(inp, u)) && (forall c :: c in a.creds && c.boundPod.Some? ==> Todays(inp, c.boundPod.value))
  {
    hide HistoryWorld, Todays, RunActs, ReplicaFresh, HistoryRuns, InitialState;
    if HistoryRuns(inp, view, Full) {
      forall w | HistoryReach(inp, view, w)
        ensures AllTodays(inp, w)
      {
        var acts := HistoryActs(inp, view, w);
        HistoryTodays(inp, view, acts);
      }
    } else {
      HistoryStartTodays(inp, view);
      StartWithin(inp, view);
    }
  }

  lemma StartWithin(inp: Input, view: Perspective)
    ensures View(InitialState(inp, view, Full)).att.pods <= HistoryWorld(inp, view).att.pods
    ensures View(InitialState(inp, view, Full)).att.creds == HistoryWorld(inp, view).att.creds
  {
    hide HistoryEnv, InitialState, HistoricalFacts;
    var s, t := InitialState(inp, view, Full), HistoryStart(inp, view, Full);
    assert s.facts.Keys <= t.facts.Keys && s.creds == t.creds;
    forall u | ControlsPod(u) in s.facts
      ensures ControlsPod(u) in t.facts
    {
      assert ControlsPod(u) in s.facts.Keys;
    }
  }

  lemma StartSpent(inp: Input, view: Perspective, a: Att)
    requires WellFormed(inp) && ReplicaFresh(inp) && inp.st.api != [] && HistoryGain(inp, view, a)
    ensures StageSpent(inp, Stage(0, World(Reconcile(inp.env), a)))
  {
    hide Reconcile, EnvInv, Reconciled, HistoryGain, Todays, Spent, ReplicaFresh, Plain;
    MainEnvGood(inp);
    SameCtrls(inp);
    GainTodays(inp, view, a);
    forall u | Todays(inp, u)
      ensures Spent(Reconcile(inp.env), u)
    {
      TodaySpent(inp, u);
    }
    forall u | u in Reconcile(inp.env).pods
      ensures Spent(Reconcile(inp.env), u)
    {
      assert Todays(inp, u) by { ThereIsToday(inp, u); }
    }
    MainOwnersLive(inp);
  }

  lemma ThereIsToday(inp: Input, u: Uid)
    requires u in Reconcile(inp.env).pods
    ensures Todays(inp, u)
  {
  }

  lemma MainOwnersLive(inp: Input)
    requires WellFormed(inp)
    ensures OwnersLive(Reconcile(inp.env))
  {
    hide Reconcile;
    ReconcileKeepsPods(inp.env);
    ReconcileOnlyPods(inp.env);
  }

  // ---------------------------------------------------------------- cut off for good

  lemma OwnerLive(base: Env, w: World, u: Uid)
    requires Inv(base, w) && Reconciled(base) && OwnersLive(base) && u in w.env.pods && w.env.pods[u].owner.Some?
    ensures w.env.pods[u].owner.value in w.env.ctrls
  {
    hide Reconcile, Reconciled;
    if Created(u) {
      assert ShapedPod(w.env, u);
    } else {
      LiveNative(base, w.env, u);
      ReconcileIdempotent(base);
      assert Native(w.env).ctrls == base.ctrls;
      assert w.env.pods[u].owner.value in Native(w.env).ctrls;
    }
  }

  /** A dead attacker has no step left. */
  lemma NothingEnabled(st: Static, base: Env, w: World, act: Act)
    requires st.api != [] && Inv(base, w) && Reconciled(base) && OwnersLive(base) && Dead(st, w)
    ensures !Enabled(st, Now, w, act)
  {
    hide MayCreate, MayExec, CanRead, EnvInv, Reconciled, OwnersLive, CanUse;
    if act.Own? && act.pod in w.env.pods && w.env.pods[act.pod].owner.Some? { OwnerLive(base, w, act.pod); }
  }

  lemma UnusableStays(st: Static, e: Env, a: Action, c: Cred)
    requires !CanUse(st, e, c, Now) && (c.boundPod.Some? ==> Spent(e, c.boundPod.value))
    requires c.boundPod.Some? && Created(c.boundPod.value) && c.boundPod.value.Replica? ==> c.boundPod.value.owner !in e.ctrls
    ensures !CanUse(st, NextBase(e, a), c, Now)
  {
    hide Reconcile, Defend;
    var d := Defend(e, a);
    DefendShrinks(e, a);
    DefendCounters(e, a);
    DefendTime(e, a);
    ReconcileOnlyPods(d);
    ReconcileKeepsPods(d);
    if c.boundPod.Some? && c.boundPod.value in Reconcile(d).pods && c.boundPod.value !in d.pods {
      NotANewReplica(d, c.boundPod.value);
    }
  }

  lemma DefendTime(e: Env, a: Action)
    ensures e.time <= Defend(e, a).time
  {
  }

  /** A spent UID is not among the new replacements. */
  lemma NotANewReplica(d: Env, u: Uid)
    requires u !in d.pods && Spent(d, u) && (Created(u) && u.Replica? ==> u.owner !in d.ctrls)
    ensures u !in Reconcile(d).pods
  {
    hide Reconcile;
    ReconcileKeepsPods(d);
    ReconcileNumbersRise(d);
  }

  /** For native UIDs, being spent does not depend on what the attacker created. */
  lemma SpentInWorld(base: Env, w: World, u: Uid)
    requires Inv(base, w) && Reconciled(base) && Spent(base, u)
    ensures Spent(w.env, u)
  {
    hide Reconcile, Reconciled, Shaped;
    ReconcileIdempotent(base);
    if u.Replica? && !Created(u) && u.owner in w.env.ctrls {
      assert u.owner in Native(w.env).ctrls;
      assert u.owner in base.counters;
      assert u.owner in Native(w.env).counters && Native(w.env).counters[u.owner] == w.env.counters[u.owner];
    }
  }

  lemma NoCreatedLive(st: Static, w: World)
    requires Dead(st, w) && CreatedHeld(w)
    ensures forall c :: c in w.env.ctrls ==> !Created(c)
  {
    hide CanUse;
  }

  lemma DeadPods(w: World, a: Action, u: Uid)
    requires u in w.att.pods && (u in w.env.pods ==> w.env.pods[u].Acct() !in w.env.sas) && Spent(w.env, u)
    requires forall c :: c in w.env.ctrls ==> !Created(c)
    ensures var e := DefendWorld(w, a).env; u in e.pods ==> e.pods[u].Acct() !in e.sas
  {
    hide Reconcile, Defend;
    var d := Defend(w.env, a);
    DefendShrinks(w.env, a);
    DefendCounters(w.env, a);
    ReconcileOnlyPods(d);
    ReconcileKeepsPods(d);
    if u !in d.pods { NotANewReplica(d, u); }
  }

  lemma DeadDefended(inp: Input, s: Stage)
    requires inp.st.api != [] && s.phase < |inp.actions| && StageSpent(inp, s) && Dead(inp.st, s.world)
    ensures Dead(inp.st, DefendWorld(s.world, inp.actions[s.phase]))
  {
    hide Reconcile, Defend, EnvInv, Reconciled, CanUse, Spent, CreatedHeld, OwnersLive, Base;
    var w, a, base := s.world, inp.actions[s.phase], Base(inp, s.phase);
    var v := DefendWorld(w, a);
    NoCreatedLive(inp.st, w);
    forall c | c in w.att.creds
      ensures !CanUse(inp.st, v.env, c, Now)
    {
      if c.boundPod.Some? { SpentInWorld(base, w, c.boundPod.value); }
      CreatedOwner(w, c);
      UnusableStays(inp.st, w.env, a, c);
    }
    forall u | u in w.att.pods
      ensures u in v.env.pods ==> v.env.pods[u].Acct() !in v.env.sas
    {
      SpentInWorld(base, w, u);
      DeadPods(w, a, u);
    }
    DefendShrinks(w.env, a);
    ReconcileOnlyPods(Defend(w.env, a));
  }

  lemma CreatedOwner(w: World, c: Cred)
    requires forall o :: o in w.env.ctrls ==> !Created(o)
    ensures c.boundPod.Some? && Created(c.boundPod.value) && c.boundPod.value.Replica? ==> c.boundPod.value.owner !in w.env.ctrls
  {
  }

  lemma {:induction false} DeadFromHere(inp: Input, s: Stage, moves: seq<Move>)
    requires WellFormed(inp) && StageSpent(inp, s) && Dead(inp.st, s.world) && Run(inp.st, Now, inp.actions, s, moves).Some?
    ensures var t := Run(inp.st, Now, inp.actions, s, moves).value; Dead(inp.st, t.world) && t.world.att == s.world.att
  {
    hide Reconcile, Defend, EnvInv, Dead, Reconciled, AllSpent, CreatedHeld, OwnersLive, Base, Enabled, Do, Plain;
    NonEmptyApi(inp);
    if moves != [] {
      var init := moves[..|moves| - 1];
      DeadFromHere(inp, s, init);
      RunSpent(inp, s, init);
      var m := Run(inp.st, Now, inp.actions, s, init).value;
      match moves[|moves| - 1] {
        case Attacker(act) => NothingEnabled(inp.st, Base(inp, m.phase), m.world, act);
        case Defender => DeadDefended(inp, m);
      }
    }
  }

  /** Once dead, always dead: whatever either side does afterwards, the attacker holds what it
      held, has no step, and reads no Secret. */
  lemma DeadForGood(inp: Input, view: Perspective, a: Att, before: seq<Move>, s: Stage, after: seq<Move>, t: Stage, key: SecretKey)
    requires WellFormed(inp) && inp.st.api != [] && ReplicaFresh(inp) && HistoryGain(inp, view, a)
    requires Run(inp.st, Now, inp.actions, Stage(0, World(Reconcile(inp.env), a)), before) == Some(s) && Dead(inp.st, s.world)
    requires Run(inp.st, Now, inp.actions, s, after) == Some(t)
    ensures Dead(inp.st, t.world) && t.world.att == s.world.att && !Violated(inp.st, Now, t.world, NoSecretRead(key))
  {
    hide Reconcile, HistoryGain, ReplicaFresh, Plain, StageSpent, CanUse, Run;
    StartSpent(inp, view, a);
    RunSpent(inp, Stage(0, World(Reconcile(inp.env), a)), before);
    DeadFromHere(inp, s, after);
  }

  // ---------------------------------------------------------------- tokens die once

  /** For a credential not bound to a created Pod, usability depends on the phase alone. */
  lemma UsableByPhase(st: Static, base: Env, w: World, c: Cred)
    requires Inv(base, w) && Reconciled(base) && !BoundToCreated(c)
    ensures CanUse(st, w.env, c, Now) <==> CanUse(st, base, c, Now)
  {
    hide Reconcile, Reconciled, Shaped;
    ReconcileIdempotent(base);
    assert Native(w.env).time == w.env.time && Native(w.env).sas == w.env.sas;
    if c.boundPod.Some? {
      var u := c.boundPod.value;
      assert u in Native(w.env).pods <==> u in w.env.pods;
      assert u in w.env.pods ==> Native(w.env).pods[u] == w.env.pods[u];
    }
  }

  lemma {:induction false} UnusablePhases(inp: Input, i: nat, j: nat, c: Cred)
    requires i <= j <= |inp.actions| && !CanUse(inp.st, Base(inp, i), c, Now) && !BoundToCreated(c)
    requires c.boundPod.Some? ==> Spent(Base(inp, i), c.boundPod.value)
    ensures !CanUse(inp.st, Base(inp, j), c, Now)
    ensures c.boundPod.Some? ==> Spent(Base(inp, j), c.boundPod.value)
    decreases j
  {
    hide Reconcile, NextBase, CanUse, Spent;
    if i < j {
      UnusablePhases(inp, i, j - 1, c);
      UnusableStays(inp.st, Base(inp, j - 1), inp.actions[j - 1], c);
      if c.boundPod.Some? { NextSpent(Base(inp, j - 1), inp.actions[j - 1], c.boundPod.value); }
    }
  }

  /** A credential held and unusable at one point of a run is unusable at every later one. */
  lemma UnusableForGood(inp: Input, view: Perspective, a: Att, before: seq<Move>, s: Stage, after: seq<Move>, t: Stage, c: Cred)
    requires WellFormed(inp) && inp.st.api != [] && ReplicaFresh(inp) && HistoryGain(inp, view, a)
    requires Run(inp.st, Now, inp.actions, Stage(0, World(Reconcile(inp.env), a)), before) == Some(s)
    requires Run(inp.st, Now, inp.actions, s, after) == Some(t)
    requires c in s.world.att.creds && !BoundToCreated(c) && !CanUse(inp.st, s.world.env, c, Now)
    ensures !CanUse(inp.st, t.world.env, c, Now)
  {
    hide Reconcile, HistoryGain, ReplicaFresh, Plain, CanUse, Run, Spent, EnvInv, Reconciled, CreatedHeld, OwnersLive, Base;
    StartSpent(inp, view, a);
    RunSpent(inp, Stage(0, World(Reconcile(inp.env), a)), before);
    RunSpent(inp, s, after);
    PhaseGrows(inp, s, after, t);
    UsableByPhase(inp.st, Base(inp, s.phase), s.world, c);
    UnusablePhases(inp, s.phase, t.phase, c);
    UsableByPhase(inp.st, Base(inp, t.phase), t.world, c);
  }

  lemma {:induction false} PhaseGrows(inp: Input, s: Stage, moves: seq<Move>, t: Stage)
    requires inp.st.api != [] && Run(inp.st, Now, inp.actions, s, moves) == Some(t)
    ensures s.phase <= t.phase
  {
    hide Enabled, Do, DefendWorld;
    if moves != [] { PhaseGrows(inp, s, moves[..|moves| - 1], Run(inp.st, Now, inp.actions, s, moves[..|moves| - 1]).value); }
  }
}
