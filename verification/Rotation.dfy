/** Rotating a service's credential works once it has propagated: from then on the attacker gets
    in only with a version learned after the rotation. */
module Rotation {
  import opened Model
  import opened Semantics
  import opened Attack
  import opened Rules
  import opened Shape
  import opened Fixpoint
  import opened Case
  import opened Interleavings

  // ---------------------------------------------------------------- Secrets and services over the phases

  /** An inventory starts without superseded versions. */
  predicate NoGrace(e: Env) { forall n :: n in e.services ==> e.services[n].grace == {} }

  /** Superseded versions are honoured for the delay at most. */
  predicate GraceBounded(e: Env) {
    forall n, g :: n in e.services && g in e.services[n].grace ==> g.until <= e.time + e.services[n].delay
  }

  /** Later environments have the same Secrets and services, at no earlier time and version. */
  predicate Later(e: Env, f: Env) {
    && e.time <= f.time && e.secrets.Keys == f.secrets.Keys && e.services.Keys == f.services.Keys
    && (forall k :: k in e.secrets ==> e.secrets[k] <= f.secrets[k])
    && (forall n :: n in e.services ==> f.services[n].source == e.services[n].source && f.services[n].delay == e.services[n].delay)
  }

  lemma DefendLater(e: Env, a: Action)
    ensures Later(e, Defend(e, a)) && (GraceBounded(e) ==> GraceBounded(Defend(e, a)))
  {
    hide Rotated;
    match a {
      case Rotate(name) => if name in e.services { RotatedLater(e, name); }
      case _ => SameServices(e, a);
    }
  }

  lemma SameServices(e: Env, a: Action)
    requires !a.Rotate?
    ensures var d := Defend(e, a); d.services == e.services && d.secrets == e.secrets && d.time >= e.time
  {
  }

  lemma RotatedLater(e: Env, name: string)
    requires name in e.services
    ensures Later(e, Rotated(e, name)) && (GraceBounded(e) ==> GraceBounded(Rotated(e, name)))
  {
  }

  lemma NextLater(e: Env, a: Action)
    ensures Later(e, NextBase(e, a)) && (GraceBounded(e) ==> GraceBounded(NextBase(e, a)))
  {
    DefendLater(e, a);
  }

  lemma LaterThen(a: Env, b: Env, c: Env)
    requires Later(a, b) && Later(b, c)
    ensures Later(a, c)
  {
  }

  lemma {:induction false} BaseLater(inp: Input, i: nat, j: nat)
    requires i <= j <= |inp.actions|
    ensures Later(Base(inp, i), Base(inp, j))
    decreases j
  {
    hide NextBase, Later, Reconcile;
    if i < j {
      BaseLater(inp, i, j - 1);
      NextLater(Base(inp, j - 1), inp.actions[j - 1]);
      LaterThen(Base(inp, i), Base(inp, j - 1), Base(inp, j));
    } else {
      LaterSelf(Base(inp, i));
    }
  }

  lemma LaterSelf(e: Env)
    ensures Later(e, e)
  {
  }

  lemma {:induction false} BaseGrace(inp: Input, i: nat)
    requires NoGrace(inp.env) && i <= |inp.actions|
    ensures GraceBounded(Base(inp, i))
  {
    hide NextBase, Defend;
    if i > 0 {
      BaseGrace(inp, i - 1);
      NextLater(Base(inp, i - 1), inp.actions[i - 1]);
    }
  }

  // ---------------------------------------------------------------- what a rotation leaves behind

  /** From `deadline` on the service accepts no version below `v`. */
  predicate Closes(e: Env, name: string, v: int, deadline: int) {
    && name in e.services && e.services[name].accepted >= v
    && forall g :: g in e.services[name].grace ==> g.version >= v || g.until <= deadline
  }

  lemma DefendKeepsClosed(e: Env, a: Action, name: string, v: int, deadline: int)
    requires Closes(e, name, v, deadline)
    ensures Closes(NextBase(e, a), name, v, deadline)
  {
    hide Reconcile, Rotated;
    ReconcileOnlyPods(Defend(e, a));
    match a {
      case Rotate(other) => if other in e.services { RotatedKeepsClosed(e, other, name, v, deadline); }
      case _ => SameServices(e, a);
    }
  }

  lemma RotatedKeepsClosed(e: Env, other: string, name: string, v: int, deadline: int)
    requires Closes(e, name, v, deadline) && other in e.services
    ensures Closes(Rotated(e, other), name, v, deadline)
  {
  }

  lemma RotationCloses(e: Env, name: string)
    requires name in e.services && GraceBounded(e)
    ensures Closes(NextBase(e, Rotate(name)), name, NextBase(e, Rotate(name)).services[name].accepted, e.time + e.services[name].delay)
    ensures e.services[name].source in e.secrets ==> NextBase(e, Rotate(name)).services[name].accepted > e.secrets[e.services[name].source]
  {
  }

  lemma {:induction false} StaysClosed(inp: Input, p: nat, j: nat, name: string, v: int, deadline: int)
    requires p <= j <= |inp.actions| && Closes(Base(inp, p), name, v, deadline)
    ensures Closes(Base(inp, j), name, v, deadline)
    decreases j
  {
    hide NextBase, Closes, Reconcile;
    if p < j {
      StaysClosed(inp, p, j - 1, name, v, deadline);
      DefendKeepsClosed(Base(inp, j - 1), inp.actions[j - 1], name, v, deadline);
    }
  }

  lemma ClosedAccepts(e: Env, name: string, v: int, deadline: int, version: int)
    requires Closes(e, name, v, deadline) && e.time >= deadline && e.services[name].Accepts(version, e.time)
    ensures version >= v
  {
  }

  /** After propagation the service accepts only versions newer than the Secret was before. */
  lemma OnlyNewer(inp: Input, p: nat, j: nat, name: string, version: int)
    requires NoGrace(inp.env) && p < j <= |inp.actions| && inp.actions[p] == Rotate(name)
    requires name in Base(inp, p).services && Base(inp, p).services[name].source in Base(inp, p).secrets
    requires name in Base(inp, j).services && Base(inp, j).time >= Base(inp, p).time + Base(inp, p).services[name].delay
    requires Base(inp, j).services[name].Accepts(version, Base(inp, j).time)
    ensures version > Base(inp, p).secrets[Base(inp, p).services[name].source]
  {
    hide NextBase, Closes, Reconcile, Base;
    var e := Base(inp, p);
    BaseNext(inp, p);
    BaseGrace(inp, p);
    RotationCloses(e, name);
    var v := Base(inp, p + 1).services[name].accepted;
    StaysClosed(inp, p + 1, j, name, v, e.time + e.services[name].delay);
    ClosedAccepts(Base(inp, j), name, v, e.time + e.services[name].delay, version);
  }

  lemma BaseNext(inp: Input, p: nat)
    requires p < |inp.actions|
    ensures Base(inp, p + 1) == NextBase(Base(inp, p), inp.actions[p])
  {
  }

  // ---------------------------------------------------------------- all interleavings

  /** No known version is ahead of its Secret. */
  predicate KnowsPast(e: Env, know: set<Known>) {
    forall k :: k in know && k.secret in e.secrets ==> k.version <= e.secrets[k.secret]
  }

  predicate SameSecrets(e: Env, f: Env) { f.time == e.time && f.secrets == e.secrets && f.services == e.services }

  lemma InvSecrets(base: Env, e: Env)
    requires EnvInv(base, e)
    ensures SameSecrets(base, e)
  {
    hide Shaped;
    assert Native(e).time == e.time && Native(e).secrets == e.secrets && Native(e).services == e.services;
  }

  lemma StepKnowsPast(st: Static, w: World, act: Act, base: Env)
    requires KnowsPast(base, w.att.know) && SameSecrets(base, w.env)
    ensures KnowsPast(base, Do(st, w, act).att.know)
  {
    hide WithPod, WithCtrl;
  }

  lemma LaterKnowsPast(e: Env, f: Env, know: set<Known>)
    requires Later(e, f) && KnowsPast(e, know)
    ensures KnowsPast(f, know)
  {
  }

  /** In every run, whatever the attacker knows is never ahead of the Secret. */
  lemma {:induction false} RunKnowsPast(inp: Input, a: Att, moves: seq<Move>)
    requires Plain(inp) && KnowsPast(inp.env, a.know)
    requires Run(inp.st, Now, inp.actions, Stage(0, World(Reconcile(inp.env), a)), moves).Some?
    ensures var s := Run(inp.st, Now, inp.actions, Stage(0, World(Reconcile(inp.env), a)), moves).value;
      s.phase <= |inp.actions| && EnvInv(Base(inp, s.phase), s.world.env) && KnowsPast(Base(inp, s.phase), s.world.att.know)
  {
    hide EnvInv, Reconcile, Enabled, Do, Reconciled, KnowsPast, Later, Plain, DefendWorld;
    NonEmptyApi(inp);
    if moves == [] {
      MainEnvGood(inp);
      StartKnowsPast(inp, a);
    } else {
      RunKnowsPast(inp, a, moves[..|moves| - 1]);
      var s := Run(inp.st, Now, inp.actions, Stage(0, World(Reconcile(inp.env), a)), moves[..|moves| - 1]).value;
      match moves[|moves| - 1] {
        case Attacker(act) =>
          InvSecrets(Base(inp, s.phase), s.world.env);
          StepKnowsPast(inp.st, s.world, act, Base(inp, s.phase));
          StepKeepsInv(inp.st, Now, Base(inp, s.phase), s.world, act);
        case Defender =>
          BaseReconciled(inp, s.phase);
          ActionNative(inp, s.phase);
          DefendKeepsInv(Base(inp, s.phase), s.world, inp.actions[s.phase]);
          BaseNext(inp, s.phase);
          NextLater(Base(inp, s.phase), inp.actions[s.phase]);
          LaterKnowsPast(Base(inp, s.phase), Base(inp, s.phase + 1), s.world.att.know);
          SameAtt(s.world, inp.actions[s.phase]);
      }
    }
  }

  lemma SameAtt(w: World, a: Action)
    ensures DefendWorld(w, a).att == w.att
  {
  }

  lemma ActionNative(inp: Input, k: nat)
    requires Plain(inp) && k < |inp.actions|
    ensures NativeAction(inp.actions[k])
  {
  }

  lemma StartKnowsPast(inp: Input, a: Att)
    requires KnowsPast(inp.env, a.know)
    ensures KnowsPast(Base(inp, 0), a.know)
  {
    ReconcileOnlyPods(inp.env);
  }

  /** Run level: what the attacker knew before the rotation does not open the service once the
      rotation has propagated, whatever happens in between. */
  lemma OldKnowledgeUseless(inp: Input, a: Att, moves: seq<Move>, p: nat, name: string, later: World, j: nat, k: Known)
    requires Plain(inp) && NoGrace(inp.env) && KnowsPast(inp.env, a.know)
    requires var s := Run(inp.st, Now, inp.actions, Stage(0, World(Reconcile(inp.env), a)), moves);
      s.Some? && s.value.phase == p && k in s.value.world.att.know
    requires p < j <= |inp.actions| && inp.actions[p] == Rotate(name) && EnvInv(Base(inp, j), later.env)
    requires name in Base(inp, p).services && Base(inp, p).services[name].source in Base(inp, p).secrets
    requires later.env.time >= Base(inp, p).time + Base(inp, p).services[name].delay
    ensures name in later.env.services && later.env.services[name].source == Base(inp, p).services[name].source
    ensures k.secret == later.env.services[name].source ==> !later.env.services[name].Accepts(k.version, later.env.time)
  {
    hide EnvInv, Reconcile, Base, Plain, Run;
    RunKnowsPast(inp, a, moves);
    InvSecrets(Base(inp, j), later.env);
    BaseLater(inp, p, j);
    if k.secret == later.env.services[name].source && later.env.services[name].Accepts(k.version, later.env.time) {
      OnlyNewer(inp, p, j, name, k.version);
    }
  }

  // ---------------------------------------------------------------- the engine's derivations

  predicate EvidencePast(inp: Input) {
    forall f :: f in inp.facts && f.claim.ClaimKnown? && f.claim.known.secret in inp.env.secrets ==>
      f.claim.known.version <= inp.env.secrets[f.claim.known.secret]
  }

  /** A recorded Secret version was current in the interval that recorded it; what evidence or
      history contributed is no newer than the inventory. */
  ghost predicate ReadThen(inp: Input, now: int, s: State)
    requires now <= |inp.actions|
  {
    forall k :: KnowsSecret(k) in s.facts && k.secret in inp.env.secrets ==> ReadAt(inp, now, k, s.facts[KnowsSecret(k)].interval)
  }

  predicate ReadAt(inp: Input, now: int, k: Known, i: int)
    requires now <= |inp.actions| && k.secret in inp.env.secrets
  {
    && i <= now
    && (i < 0 ==> k.version <= inp.env.secrets[k.secret])
    && (0 <= i ==> k.secret in Base(inp, i).secrets && Base(inp, i).secrets[k.secret] == k.version)
  }

  predicate SecretsOf(inp: Input, now: int, e: Env)
    requires now <= |inp.actions|
  {
    e.secrets == if now < 0 then inp.env.secrets else Base(inp, now).secrets
  }

  lemma FiringReads(inp: Input, ctx: Ctx, s: State, f: Firing)
    requires ctx.Valid() && -1 <= ctx.interval <= |inp.actions| && SecretsOf(inp, ctx.interval, s.env) && Ready(ctx, s, f)
    requires ReadThen(inp, ctx.interval, s)
    ensures ReadThen(inp, ctx.interval, Fire(ctx, s, f))
  {
    hide Base, WithPod, WithCtrl, Acts, CanRead, MayCreate, MayExec;
    var t := Fire(ctx, s, f);
    forall k | KnowsSecret(k) in t.facts && k.secret in inp.env.secrets
      ensures ReadAt(inp, ctx.interval, k, t.facts[KnowsSecret(k)].interval)
    {
      if f.FireLearn? && k == Known(f.secret, s.env.secrets[f.secret]) {
        assert t.facts[KnowsSecret(k)] == Derive(ctx, s, f);
      } else {
        assert KnowsSecret(k) in s.facts && t.facts[KnowsSecret(k)] == s.facts[KnowsSecret(k)];
      }
    }
  }

  lemma {:induction false} FiringsRead(inp: Input, ctx: Ctx, s: State, fs: seq<Firing>)
    requires ctx.Valid() && -1 <= ctx.interval <= |inp.actions| && SecretsOf(inp, ctx.interval, s.env) && FireAll(ctx, s, fs).Some?
    requires ReadThen(inp, ctx.interval, s)
    ensures ReadThen(inp, ctx.interval, FireAll(ctx, s, fs).value) && FireAll(ctx, s, fs).value.env.secrets == s.env.secrets
  {
    hide Ready, Fire, ReadThen, Base;
    if fs != [] {
      var m := FireAll(ctx, s, fs[..|fs| - 1]).value;
      FiringsRead(inp, ctx, s, fs[..|fs| - 1]);
      FiringReads(inp, ctx, m, fs[|fs| - 1]);
      FiringGrowsEnv(ctx, m, fs[|fs| - 1]);
    }
  }

  lemma SaturationReads(inp: Input, ctx: Ctx, s: State, t: State)
    requires ctx.Valid() && -1 <= ctx.interval <= |inp.actions| && SecretsOf(inp, ctx.interval, s.env) && Saturates(ctx, s, t)
    requires ReadThen(inp, ctx.interval, s)
    ensures ReadThen(inp, ctx.interval, t) && t.env.secrets == s.env.secrets
  {
    hide ReadThen, SecretsOf, Closed;
    var fs :| FireAll(ctx, s, fs) == Some(t);
    FiringsRead(inp, ctx, s, fs);
  }

  lemma EvidenceReads(inp: Input, view: Perspective, now: int, s: State)
    requires EvidencePast(inp) && -1 <= now <= |inp.actions|
    requires forall f :: f in s.facts && f.KnowsSecret? ==> f in InitialFacts(inp, view, Full) && s.facts[f] == EVIDENCE
    ensures ReadThen(inp, now, s)
  {
    hide Base;
    forall k | KnowsSecret(k) in s.facts && k.secret in inp.env.secrets
      ensures ReadAt(inp, now, k, s.facts[KnowsSecret(k)].interval)
    {
      var f :| f in inp.facts && Kept(f, view, Full) && FactOf(f.claim) == KnowsSecret(k);
      assert f.claim == ClaimKnown(k);
    }
  }

  lemma InventorySecrets(inp: Input)
    ensures Base(inp, 0).secrets == inp.env.secrets
  {
    ReconcileOnlyPods(inp.env);
  }

  lemma StartReads(inp: Input, view: Perspective, start: State)
    requires Plain(inp) && EvidencePast(inp) && StartsMain(inp, view, Full, start)
    ensures ReadThen(inp, 0, start)
  {
    hide Saturates, Reconcile, Plain, ReadAt, HistoryRuns;
    NonEmptyApi(inp);
    if HistoryRuns(inp, view, Full) {
      var ctx := Ctx(inp.st, HistoryRule(inp, Full), -1);
      var h :| Saturates(ctx, HistoryStart(inp, view, Full), h) && start == MainStart(inp, h);
      EvidenceReads(inp, view, -1, HistoryStart(inp, view, Full));
      PlainStatic(inp);
      SaturationReads(inp, ctx, HistoryStart(inp, view, Full), h);
      StartedRead(inp, h, start);
    } else {
      EvidenceReads(inp, view, 0, start);
    }
  }

  lemma PlainStatic(inp: Input)
    requires Plain(inp)
    ensures inp.st.Valid()
  {
  }

  lemma StartedRead(inp: Input, h: State, start: State)
    requires ReadThen(inp, -1, h) && start.facts == h.facts
    ensures ReadThen(inp, 0, start)
  {
    hide Base;
    forall k | KnowsSecret(k) in start.facts && k.secret in inp.env.secrets
      ensures ReadAt(inp, 0, k, start.facts[KnowsSecret(k)].interval)
    {
      assert ReadAt(inp, -1, k, h.facts[KnowsSecret(k)].interval);
    }
  }

  lemma {:induction false} StageReads(inp: Input, view: Perspective, start: State, stages: seq<State>, j: nat)
    requires Plain(inp) && EvidencePast(inp) && StartsMain(inp, view, Full, start) && Ladder(inp, Now, start, stages) && j <= |inp.actions|
    ensures ReadThen(inp, j, stages[j])
  {
    hide Good, EnvInv, Reconcile, Defend, Plain, ReadThen, StartsMain, Saturates, Base;
    PlainStatic(inp);
    StartGood(inp, view, Full, start);
    LadderGood(inp, Now, start, stages, j);
    if j == 0 {
      StartReads(inp, view, start);
      InventorySecrets(inp);
      ReconcileOnlyPods(inp.env);
      SaturationReads(inp, Ctx(inp.st, Now, 0), start, stages[0]);
    } else {
      StageReads(inp, view, start, stages, j - 1);
      LadderGood(inp, Now, start, stages, j - 1);
      var s, a := stages[j - 1], inp.actions[j - 1];
      NextReads(inp, j - 1, s, a);
      assert Saturates(Ctx(inp.st, Now, (j - 1) + 1), NextState(s, a), stages[(j - 1) + 1]);
      SaturationReads(inp, Ctx(inp.st, Now, j), NextState(s, a), stages[j]);
    }
  }

  lemma NextReads(inp: Input, k: nat, s: State, a: Action)
    requires Plain(inp) && k < |inp.actions| && a == inp.actions[k] && StageGood(inp, s, k) && ReadThen(inp, k, s)
    ensures ReadThen(inp, k + 1, NextState(s, a)) && SecretsOf(inp, k + 1, NextState(s, a).env)
  {
    hide Good, Reconcile, Defend, Plain, Base, ReadAt, Reconciled;
    PlainAction(inp, k);
    NextGood(Base(inp, k), k, s, a);
    InvSecrets(NextBase(Base(inp, k), a), NextState(s, a).env);
    BaseStep(inp, k);
    forall x | KnowsSecret(x) in s.facts && x.secret in inp.env.secrets
      ensures ReadAt(inp, k + 1, x, s.facts[KnowsSecret(x)].interval)
    {
      LaterRead(inp, k, x, s.facts[KnowsSecret(x)].interval);
    }
  }

  lemma LaterRead(inp: Input, k: nat, x: Known, i: int)
    requires k < |inp.actions| && x.secret in inp.env.secrets && ReadAt(inp, k, x, i)
    ensures ReadAt(inp, k + 1, x, i)
  {
    hide Base;
  }

  lemma BaseStep(inp: Input, k: nat)
    requires k < |inp.actions|
    ensures Base(inp, k + 1) == NextBase(Base(inp, k), inp.actions[k])
  {
  }

  lemma PlainAction(inp: Input, k: nat)
    requires Plain(inp) && k < |inp.actions|
    ensures NativeAction(inp.actions[k])
  {
  }

  /** At any interval whose time is at least the delay after a rotation, a Secret version the
      service accepts and the engine has recorded was read after that rotation: over any number of
      rotations, services sharing the Secret, and refreshed or created credentials. */
  lemma RotationFreshness(inp: Input, view: Perspective, stages: seq<State>, p: nat, j: nat, name: string, k: Known)
    requires Plain(inp) && EngineRun(inp, view, Full, stages) && |stages| == |inp.actions| + 1 && NoGrace(inp.env) && EvidencePast(inp)
    requires p < j <= |inp.actions| && inp.actions[p] == Rotate(name)
    requires name in Base(inp, p).services && Base(inp, p).services[name].source in Base(inp, p).secrets
    requires Base(inp, j).time >= Base(inp, p).time + Base(inp, p).services[name].delay
    requires KnowsSecret(k) in stages[j].facts && k.secret == Base(inp, p).services[name].source
    requires name in stages[j].env.services && stages[j].env.services[name].Accepts(k.version, stages[j].env.time)
    ensures stages[j].facts[KnowsSecret(k)].interval > p
  {
    hide Good, EnvInv, Ladder, Reconcile, Plain, Base, StartsMain;
    NonEmptyApi(inp);
    var start :| StartsMain(inp, view, Full, start) && Ladder(inp, Now, start, stages);
    StartGood(inp, view, Full, start);
    LadderGood(inp, Now, start, stages, j);
    StageReads(inp, view, start, stages, j);
    InvSecrets(Base(inp, j), stages[j].env);
    BaseLater(inp, 0, p);
    BaseLater(inp, p, j);
    InventorySecrets(inp);
    OnlyNewer(inp, p, j, name, k.version);
    var i := stages[j].facts[KnowsSecret(k)].interval;
    assert ReadAt(inp, j, k, i);
    if 0 <= i <= p { BaseLater(inp, i, p); }
  }
}
