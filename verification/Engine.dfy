/** The production engine (packages/afterlock/engine.py): one object that saturates every rule
    over mutable tables, interval by interval. Every change it makes is a ready firing, recorded
    in the ghost log; iteration order over a table is left open. */
module Engine {
  import opened Model
  import opened Semantics
  import opened Attack
  import opened Rules
  import opened Shape
  import opened Fixpoint
  import opened Case
  import opened Interleavings
  import opened Termination
  import opened EngineStatus
  import opened LiveEnvironment

  class Engine {
    const inp: Input
    const view: Perspective
    const mode: Mode

    var count: nat
    var unknowns: set<Unknown>
    var inHistory: bool
    var facts: map<Fact, Derivation>
    var creds: map<CredId, Cred>
    var eph: map<Fact, Derivation>

    ghost var log: Log
    ghost var base: Env

    function Tables(env: LiveEnv): State
      reads this, env
    {
      State(env.Snapshot(), creds, facts, eph)
    }

    ghost function Moment(env: LiveEnv): Progress
      reads this, env
    {
      Progress(log, base, inHistory, count, unknowns, Tables(env))
    }

    function CurrentRule(): UseRule
      reads this`inHistory
    {
      RuleNow(inp, mode, inHistory)
    }

    ghost predicate Valid(env: LiveEnv, interval: int)
      reads this, env
    {
      Sound(inp, mode, interval, Moment(env))
    }

    constructor (inp: Input, view: Perspective, mode: Mode)
      ensures this.inp == inp && this.view == view && this.mode == mode
      ensures count == 0 && unknowns == {} && !inHistory && facts == map[] && creds == map[] && eph == map[]
    {
      this.inp, this.view, this.mode := inp, view, mode;
      count, unknowns, inHistory, facts, creds, eph := 0, {}, false, map[], map[], map[];
    }

    // -------------------------------------------------------------- bookkeeping

    /** Counts one derivation; `ok` is false once the cap is exceeded. */
    method Tick() returns (ok: bool)
      modifies this`count
      ensures count == old(count) + 1 && (ok <==> count <= inp.maxDerivations)
    {
      count := count + 1;
      ok := count <= inp.maxDerivations;
    }

    /** Records a new fact with its derivation, unless it is already known. */
    method Add(fact: Fact, d: Derivation) returns (added: bool, ok: bool)
      modifies this`count, this`facts, this`eph
      ensures var table := if Persistent(fact) then old(facts) else old(eph);
        if fact in table then !added && ok && facts == old(facts) && eph == old(eph) && count == old(count)
        else
          && count == old(count) + 1 && (ok <==> count <= inp.maxDerivations) && added == ok
          && (ok ==> facts == (if Persistent(fact) then old(facts)[fact := d] else old(facts)))
          && (ok ==> eph == (if Persistent(fact) then old(eph) else old(eph)[fact := d]))
    {
      added, ok := false, true;
      if fact in (if Persistent(fact) then facts else eph) { return; }
      ok := Tick();
      if !ok { return; }
      if Persistent(fact) {
        facts := facts[fact := d];
      } else {
        eph := eph[fact := d];
      }
      added := true;
    }

    /** Draws the conclusion of a rule that leaves environment and credentials alone. */
    method Conclude(env: LiveEnv, ghost interval: int, ghost f: Firing, fact: Fact, d: Derivation) returns (added: bool, ok: bool)
      requires Valid(env, interval) && log.ctx.Valid() && !f.FireToken? && !f.FirePod? && !f.FireCtrl?
      requires fact !in (if Persistent(fact) then facts else eph) ==>
        Ready(log.ctx, Tables(env), f) && Concludes(log.ctx, Tables(env), f) == fact && Derive(log.ctx, Tables(env), f) == d
      modifies this`count, this`facts, this`eph, this`log
      ensures ok ==> Valid(env, interval) && Stepped(old(Moment(env)), Moment(env), added)
      ensures ok ==> fact in (if Persistent(fact) then facts else eph)
      ensures !ok ==> count > inp.maxDerivations
    {
      hide Sound, Stepped, Derive, Concludes, Ready, Fire;
      ghost var m0 := Moment(env);
      NotStepped(m0);
      added, ok := Add(fact, d);
      if added {
        QuietFire(m0.log.ctx, m0.tables, f);
        Fired(env, interval, m0, f);
      }
    }

    /** Extends the log with a firing whose effect has just been written to the tables. */
    ghost method Fired(env: LiveEnv, interval: int, m0: Progress, f: Firing)
      requires Sound(inp, mode, interval, m0) && m0.log.ctx.Valid() && Ready(m0.log.ctx, m0.tables, f)
      requires Moment(env) == m0.(count := m0.count + 1, tables := Fire(m0.log.ctx, m0.tables, f))
      modifies this`log
      ensures Valid(env, interval) && Stepped(m0, Moment(env), true)
      ensures log.ctx == m0.log.ctx
    {
      hide Good, EnvInv, Ready, Fire, EnvGrew, Plain;
      var ctx, s := m0.log.ctx, m0.tables;
      FireExtend(ctx, m0.log.start, m0.log.fired, f);
      FiringKeepsGood(ctx, m0.base, s, f);
      FiringGrowsEnv(ctx, s, f);
      FactsGrow(ctx, s, f);
      log := log.(fired := log.fired + [f]);
    }

    // -------------------------------------------------------------- controlled controllers own their Pods

    method OwnPod(env: LiveEnv, interval: int, c: Uid, u: Uid) returns (changed: bool, ok: bool)
      requires Valid(env, interval) && log.ctx.Valid() && ControlsController(c) in facts && u in env.pods
      modifies this`count, this`facts, this`eph, this`log
      ensures ok ==> Valid(env, interval) && Stepped(old(Moment(env)), Moment(env), changed)
      ensures ok && !changed && log.ctx.Valid() ==> !Ready(log.ctx, Tables(env), FireOwn(c, u))
      ensures !ok ==> count > inp.maxDerivations
    {
      hide Stepped, Good, EnvInv, Plain, FireAll;
      changed, ok := false, true;
      NotStepped(Moment(env));
      if env.pods[u].owner == Some(c) {
        changed, ok := Conclude(env, interval, FireOwn(c, u), ControlsPod(u),
          Derivation(ControllerPod, interval, [ControlsController(c)], [PodOwned(u, c)]));
      }
    }

    method OwnPods(env: LiveEnv, interval: int, c: Uid) returns (changed: bool, ok: bool)
      requires Valid(env, interval) && ControlsController(c) in facts
      modifies this`count, this`facts, this`eph, this`log
      ensures ok ==> Valid(env, interval) && Stepped(old(Moment(env)), Moment(env), changed)
      ensures ok && !changed && log.ctx.Valid() ==> OwnDone(log.ctx, Tables(env), c)
      ensures !ok ==> count > inp.maxDerivations
    {
      hide Sound, Stepped, Ready, OwnDone;
      ghost var m0 := Moment(env);
      SoundCtx(inp, mode, interval, m0);
      NotStepped(m0);
      changed, ok := false, true;
      var todo := env.pods.Keys;
      while todo != {}
        invariant ok && Valid(env, interval) && Stepped(m0, Moment(env), changed) && todo <= env.pods.Keys
        invariant log.ctx == m0.log.ctx && ControlsController(c) in facts && (!changed ==> Tables(env) == m0.tables)
        invariant !changed ==> forall u :: u in env.pods && u !in todo ==> !Ready(m0.log.ctx, m0.tables, FireOwn(c, u))
        decreases |todo|
      {
        var u :| u in todo;
        todo := todo - {u};
        ghost var m1 := Moment(env);
        SteppedKeeps(m0, m1, changed);
        var more;
        more, ok := OwnPod(env, interval, c, u);
        if !ok { return; }
        SteppedThen(m0, m1, Moment(env), changed, more);
        changed := changed || more;
        SteppedKeeps(m0, Moment(env), changed);
      }
      OwnOnlyLive(m0.log.ctx, m0.tables, c);
    }

    /** Controlled controllers control their current Pods. */
    method ControllerPods(env: LiveEnv, interval: int) returns (changed: bool, ok: bool)
      requires Valid(env, interval)
      modifies this`count, this`facts, this`eph, this`log
      ensures ok ==> Valid(env, interval) && Stepped(old(Moment(env)), Moment(env), changed)
      ensures ok && !changed && log.ctx.Valid() ==> forall c :: OwnDone(log.ctx, Tables(env), c)
      ensures !ok ==> count > inp.maxDerivations
    {
      hide Sound, Stepped, Ready, OwnDone;
      ghost var m0 := Moment(env);
      SoundCtx(inp, mode, interval, m0);
      NotStepped(m0);
      changed, ok := false, true;
      var controlled := set f | f in facts && f.ControlsController?;
      var todo := controlled;
      while todo != {}
        invariant ok && Valid(env, interval) && Stepped(m0, Moment(env), changed) && todo <= controlled && controlled <= facts.Keys
        invariant log.ctx == m0.log.ctx && (!changed ==> Tables(env) == m0.tables)
        invariant !changed ==> forall f :: f in controlled && f !in todo ==> OwnDone(m0.log.ctx, m0.tables, f.ctrl)
        decreases |todo|
      {
        var f :| f in todo;
        todo := todo - {f};
        ghost var m1 := Moment(env);
        SteppedKeeps(m0, m1, changed);
        var more;
        more, ok := OwnPods(env, interval, f.ctrl);
        if !ok { return; }
        SteppedThen(m0, m1, Moment(env), changed, more);
        changed := changed || more;
        SteppedKeeps(m0, Moment(env), changed);
      }
      if !changed {
        forall c
          ensures OwnDone(m0.log.ctx, m0.tables, c)
        {
          if ControlsController(c) in m0.tables.facts { assert ControlsController(c) in controlled; } else { OwnNeedsControl(m0.log.ctx, m0.tables, c); }
        }
      }
    }

    // -------------------------------------------------------------- controlled Pods yield tokens

    method TakeToken(env: LiveEnv, interval: int, u: Uid, aud: string) returns (changed: bool, ok: bool)
      requires Valid(env, interval) && log.ctx == Ctx(inp.st, CurrentRule(), interval) && log.ctx.Valid()
      requires ControlsPod(u) in facts && u in env.pods && env.pods[u].Acct() in env.serviceAccounts
      requires aud in Audiences(inp.st, env.pods[u])
      modifies this`count, this`facts, this`creds, this`log
      ensures ok ==> Valid(env, interval) && Stepped(old(Moment(env)), Moment(env), changed)
      ensures ok && !changed && log.ctx.Valid() ==> !Ready(log.ctx, Tables(env), FireToken(u, aud))
      ensures !ok ==> count > inp.maxDerivations
    {
      hide Stepped, Sound;
      changed, ok := false, true;
      ghost var m0 := Moment(env);
      NotStepped(m0);
      var id := Projected(u, aud);
      var expires := env.time + inp.st.ttl;
      if id in creds && creds[id].expires.Some? && creds[id].expires.value >= expires { return; }
      var a := env.pods[u].Acct();
      creds := creds[id := Cred(id, "sa_token", SaUser(a), Some(env.serviceAccounts[a]), Some(u), aud, Some(expires))];
      ok := Tick();
      if !ok { return; }
      facts := facts[Possesses(id) := Derivation(ObtainToken, interval, [ControlsPod(u)],
                                                 [PodExists(u), AccountExists(a, Some(env.serviceAccounts[a]))])];
      changed := true;
      Fired(env, interval, m0, FireToken(u, aud));
    }

    method TakeTokens(env: LiveEnv, interval: int, u: Uid) returns (changed: bool, ok: bool)
      requires Valid(env, interval) && ControlsPod(u) in facts
      modifies this`count, this`facts, this`creds, this`log
      ensures ok ==> Valid(env, interval) && Stepped(old(Moment(env)), Moment(env), changed)
      ensures ok && !changed && log.ctx.Valid() ==> TokensDone(log.ctx, Tables(env), u)
      ensures !ok ==> count > inp.maxDerivations
    {
      hide Sound, Stepped, Ready, TokensDone;
      ghost var m0 := Moment(env);
      SoundCtx(inp, mode, interval, m0);
      NotStepped(m0);
      changed, ok := false, true;
      if u !in env.pods || env.pods[u].Acct() !in env.serviceAccounts {
        TokensOnlyProjected(log.ctx, Tables(env), u, []);
        return;
      }
      var auds := Audiences(inp.st, env.pods[u]);
      for i := 0 to |auds|
        invariant ok && Valid(env, interval) && Stepped(m0, Moment(env), changed) && ControlsPod(u) in facts
        invariant log.ctx == m0.log.ctx && inHistory == m0.inHistory && (!changed ==> Tables(env) == m0.tables)
        invariant !changed ==> forall j :: 0 <= j < i ==> !Ready(m0.log.ctx, m0.tables, FireToken(u, auds[j]))
      {
        ghost var m1 := Moment(env);
        SteppedKeeps(m0, m1, changed);
        var more;
        more, ok := TakeToken(env, interval, u, auds[i]);
        if !ok { return; }
        SteppedThen(m0, m1, Moment(env), changed, more);
        changed := changed || more;
        SteppedKeeps(m0, Moment(env), changed);
      }
      if !changed { TokensOnlyProjected(m0.log.ctx, m0.tables, u, auds); }
    }

    /** A controlled, existing Pod yields its projected tokens. */
    method ProjectedTokens(env: LiveEnv, interval: int) returns (changed: bool, ok: bool)
      requires Valid(env, interval)
      modifies this`count, this`facts, this`creds, this`log
      ensures ok ==> Valid(env, interval) && Stepped(old(Moment(env)), Moment(env), changed)
      ensures ok && !changed && log.ctx.Valid() ==> forall u :: TokensDone(log.ctx, Tables(env), u)
      ensures !ok ==> count > inp.maxDerivations
    {
      hide Sound, Stepped, Ready, TokensDone;
      ghost var m0 := Moment(env);
      SoundCtx(inp, mode, interval, m0);
      NotStepped(m0);
      changed, ok := false, true;
      var controlled := set f | f in facts && f.ControlsPod?;
      var todo := controlled;
      while todo != {}
        invariant ok && Valid(env, interval) && Stepped(m0, Moment(env), changed) && todo <= controlled && controlled <= facts.Keys
        invariant log.ctx == m0.log.ctx && (!changed ==> Tables(env) == m0.tables)
        invariant !changed ==> forall f :: f in controlled && f !in todo ==> TokensDone(m0.log.ctx, m0.tables, f.pod)
        decreases |todo|
      {
        var f :| f in todo;
        todo := todo - {f};
        ghost var m1 := Moment(env);
        SteppedKeeps(m0, m1, changed);
        var more;
        more, ok := TakeTokens(env, interval, f.pod);
        if !ok { return; }
        SteppedThen(m0, m1, Moment(env), changed, more);
        changed := changed || more;
        SteppedKeeps(m0, Moment(env), changed);
      }
      if !changed {
        forall u
          ensures TokensDone(m0.log.ctx, m0.tables, u)
        {
          if ControlsPod(u) in m0.tables.facts { assert ControlsPod(u) in controlled; } else { TokensOnlyProjected(m0.log.ctx, m0.tables, u, []); }
        }
      }
    }

    // -------------------------------------------------------------- requests with one credential

    /** Whether a use of the credential would be accepted; an unsupported one is noted. */
    method Usable(env: LiveEnv, id: CredId) returns (usable: bool)
      requires id in creds
      modifies this`unknowns
      ensures usable == Accepted(Ctx(inp.st, CurrentRule(), 0), env.Snapshot(), creds[id])
      ensures unknowns == old(unknowns) + if CredentialUsable(inp.st, env.Snapshot(), creds[id], 0).Unsupported? then {UnsupportedCredential(id)} else {}
    {
      var e, c := env.Snapshot(), creds[id];
      var v := CredentialUsable(inp.st, e, c, UseTime(CurrentRule(), e, c));
      if v.Unsupported? {
        unknowns := unknowns + {UnsupportedCredential(id)};
        return false;
      }
      usable := mode.WithoutLifecycle? || v.Usable?;
    }

    /** Submits a Pod that every check has let through. */
    method SubmitPod(env: LiveEnv, interval: int, id: CredId, a: Account) returns (ok: bool)
      requires Valid(env, interval) && log.ctx == Ctx(inp.st, CurrentRule(), interval) && log.ctx.Valid()
      requires Ready(log.ctx, Tables(env), FirePod(id, a))
      modifies this`count, this`facts, this`eph, this`log, env`pods
      ensures ok ==> Valid(env, interval) && Stepped(old(Moment(env)), Moment(env), true)
      ensures !ok ==> count > inp.maxDerivations
    {
      hide Stepped, Sound, Accepted, AdmissionDecision, Authorized;
      ghost var m0 := Moment(env);
      var uid := ModelPod(a, interval);
      var d := Derivation(CreatePod, interval, [Possesses(id)],
        CreateConditions(Ctx(inp.st, CurrentRule(), interval), Tables(env), id, a, "pods"));
      PodFire(log.ctx, m0.tables, FirePod(id, a));
      env.pods := env.pods[uid := Pod(a.ns, Text(uid), a.name, [], None)];
      var added;
      added, ok := Add(ControlsPod(uid), d);
      if ok { Fired(env, interval, m0, FirePod(id, a)); }
    }

    method SubmitCtrl(env: LiveEnv, interval: int, id: CredId, a: Account) returns (ok: bool)
      requires Valid(env, interval) && log.ctx == Ctx(inp.st, CurrentRule(), interval) && log.ctx.Valid()
      requires Ready(log.ctx, Tables(env), FireCtrl(id, a))
      modifies this`count, this`facts, this`eph, this`log, env`pods, env`controllers, env`podCounter
      ensures ok ==> Valid(env, interval) && Stepped(old(Moment(env)), Moment(env), true)
      ensures !ok ==> count > inp.maxDerivations
    {
      hide Stepped, Sound, Accepted, AdmissionDecision, Authorized, Reconcile, Text, CreateConditions, RuleNow, ControlsLiveCtrl;
      ghost var m0 := Moment(env);
      var uid := ModelDeploy(a, interval);
      var d := Derivation(CreateController, interval, [Possesses(id)],
        CreateConditions(Ctx(inp.st, CurrentRule(), interval), Tables(env), id, a, "deployments"));
      CtrlFire(log.ctx, m0.tables, FireCtrl(id, a));
      env.controllers := env.controllers[uid := Controller(a.ns, Text(uid), a.name, [])];
      env.podCounter := env.podCounter[uid := -1];
      var _ := env.ReconcileControllers();
      var added;
      added, ok := Add(ControlsController(uid), d);
      if ok { Fired(env, interval, m0, FireCtrl(id, a)); }
    }

    /** One Pod running as `a`, unless the attacker already has a live one. */
    method CreatePodAs(env: LiveEnv, interval: int, id: CredId, a: Account) returns (changed: bool, ok: bool)
      requires Valid(env, interval) && log.ctx.Valid() && Acts(log.ctx, Tables(env), id) && a in env.serviceAccounts
      requires Authorized(inp.st, env.bindings, creds[id].user, "create", "pods", a.ns, None)
      modifies this`count, this`facts, this`eph, this`log, this`unknowns, env`pods
      ensures ok ==> Valid(env, interval) && Stepped(old(Moment(env)), Moment(env), changed)
      ensures ok && !changed && log.ctx.Valid() && id in creds ==> PodSettled(log.ctx, Tables(env), id, a, unknowns)
      ensures !ok ==> count > inp.maxDerivations
    {
      hide Stepped, EnvInv, Plain, FireAll, CredsKnown, Shaped, Accepted, AdmissionDecision, Authorized, ControlsLivePod;
      changed, ok := false, true;
      ghost var m0 := Moment(env);
      NotStepped(m0);
      if ControlsLivePod(Tables(env), a) { return; }
      var user := creds[id].user;
      var verdict := AdmissionDecision(inp.st, user, a.ns, a.name);
      if verdict.Undecided? {
        unknowns := unknowns + {UnsupportedAdmission(a.ns, user, a.name, "pod")};
        NotedOnly(m0, Moment(env));
        return;
      }
      if verdict.Deny? || ModelPod(a, interval) in env.pods { return; }
      ok := SubmitPod(env, interval, id, a);
      changed := ok;
    }

    method CreateCtrlAs(env: LiveEnv, interval: int, id: CredId, a: Account) returns (changed: bool, ok: bool)
      requires Valid(env, interval) && log.ctx.Valid() && Acts(log.ctx, Tables(env), id) && a in env.serviceAccounts
      requires Authorized(inp.st, env.bindings, creds[id].user, "create", "deployments", a.ns, None)
      modifies this`count, this`facts, this`eph, this`log, this`unknowns, env`pods, env`controllers, env`podCounter
      ensures ok ==> Valid(env, interval) && Stepped(old(Moment(env)), Moment(env), changed)
      ensures ok && !changed && log.ctx.Valid() && id in creds ==> CtrlSettled(log.ctx, Tables(env), id, a, unknowns)
      ensures !ok ==> count > inp.maxDerivations
    {
      hide Stepped, EnvInv, Plain, FireAll, CredsKnown, Shaped, Accepted, AdmissionDecision, Authorized, ControlsLiveCtrl;
      changed, ok := false, true;
      ghost var m0 := Moment(env);
      NotStepped(m0);
      if ControlsLiveCtrl(Tables(env), a) { return; }
      var user := creds[id].user;
      var verdict := AdmissionDecision(inp.st, user, a.ns, a.name);
      if verdict.Undecided? {
        unknowns := unknowns + {UnsupportedAdmission(a.ns, user, a.name, "controller")};
        NotedOnly(m0, Moment(env));
        return;
      }
      if verdict.Deny? || ModelDeploy(a, interval) in env.controllers { return; }
      ok := SubmitCtrl(env, interval, id, a);
      changed := ok;
    }

    /** A workload for every service account of one namespace. */
    method CreatePodsIn(env: LiveEnv, interval: int, id: CredId, ns: string) returns (changed: bool, ok: bool)
      requires Valid(env, interval) && log.ctx.Valid() && id in creds && Acts(log.ctx, Tables(env), id)
      requires Authorized(inp.st, env.bindings, creds[id].user, "create", "pods", ns, None)
      modifies this`count, this`facts, this`eph, this`log, this`unknowns, env`pods
      ensures ok ==> Valid(env, interval) && Stepped(old(Moment(env)), Moment(env), changed)
      ensures ok && !changed && log.ctx.Valid() && id in creds ==> PodsSettled(log.ctx, Tables(env), id, ns, unknowns)
      ensures !ok ==> count > inp.maxDerivations
    {
      hide Sound, Stepped, Ready, Acts, Authorized, PodSettled, CtrlSettled, EnvGrew, CredentialUsable, AdmissionDecision;
      ghost var m0 := Moment(env);
      SoundCtx(inp, mode, interval, m0);
      NotStepped(m0);
      changed, ok := false, true;
      var here := set a | a in env.serviceAccounts && a.ns == ns;
      var todo := here;
      while todo != {}
        invariant ok && Valid(env, interval) && Stepped(m0, Moment(env), changed) && todo <= here && id in creds
        invariant log.ctx == m0.log.ctx && (!changed ==> Tables(env) == m0.tables)
        invariant !changed ==> forall a :: a in here && a !in todo ==> PodSettled(m0.log.ctx, m0.tables, id, a, unknowns)
        decreases |todo|
      {
        var a :| a in todo;
        todo := todo - {a};
        ghost var m1 := Moment(env);
        SteppedKeeps(m0, m1, changed);
        ActsKept(m0.log.ctx, m0.tables, Tables(env), id);
        var more;
        more, ok := CreatePodAs(env, interval, id, a);
        if !ok { return; }
        SteppedThen(m0, m1, Moment(env), changed, more);
        changed := changed || more;
        SteppedKeeps(m0, Moment(env), changed);
        SteppedKeeps(m1, Moment(env), more);
        PodSettledGrows(m0.log.ctx, m0.tables, id, m1.unknowns, unknowns);
      }
    }

    /** A workload for every service account of one namespace. */
    method CreateCtrlsIn(env: LiveEnv, interval: int, id: CredId, ns: string) returns (changed: bool, ok: bool)
      requires Valid(env, interval) && log.ctx.Valid() && id in creds && Acts(log.ctx, Tables(env), id)
      requires Authorized(inp.st, env.bindings, creds[id].user, "create", "deployments", ns, None)
      modifies this`count, this`facts, this`eph, this`log, this`unknowns, env`pods, env`controllers, env`podCounter
      ensures ok ==> Valid(env, interval) && Stepped(old(Moment(env)), Moment(env), changed)
      ensures ok && !changed && log.ctx.Valid() && id in creds ==> CtrlsSettled(log.ctx, Tables(env), id, ns, unknowns)
      ensures !ok ==> count > inp.maxDerivations
    {
      hide Sound, Stepped, Ready, Acts, Authorized, PodSettled, CtrlSettled, EnvGrew, CredentialUsable, AdmissionDecision;
      ghost var m0 := Moment(env);
      SoundCtx(inp, mode, interval, m0);
      NotStepped(m0);
      changed, ok := false, true;
      var here := set a | a in env.serviceAccounts && a.ns == ns;
      var todo := here;
      while todo != {}
        invariant ok && Valid(env, interval) && Stepped(m0, Moment(env), changed) && todo <= here && id in creds
        invariant log.ctx == m0.log.ctx && (!changed ==> Tables(env) == m0.tables)
        invariant !changed ==> forall a :: a in here && a !in todo ==> CtrlSettled(m0.log.ctx, m0.tables, id, a, unknowns)
        decreases |todo|
      {
        var a :| a in todo;
        todo := todo - {a};
        ghost var m1 := Moment(env);
        SteppedKeeps(m0, m1, changed);
        ActsKept(m0.log.ctx, m0.tables, Tables(env), id);
        var more;
        more, ok := CreateCtrlAs(env, interval, id, a);
        if !ok { return; }
        SteppedThen(m0, m1, Moment(env), changed, more);
        changed := changed || more;
        SteppedKeeps(m0, Moment(env), changed);
        SteppedKeeps(m1, Moment(env), more);
        CtrlSettledGrows(m0.log.ctx, m0.tables, id, m1.unknowns, unknowns);
      }
    }

    /** Both kinds of workload, where the credential's owner may create them. */
    method CreateIn(env: LiveEnv, interval: int, id: CredId, ns: string) returns (changed: bool, ok: bool)
      requires Valid(env, interval) && log.ctx.Valid() && id in creds && Acts(log.ctx, Tables(env), id)
      modifies this`count, this`facts, this`eph, this`log, this`unknowns, env`pods, env`controllers, env`podCounter
      ensures ok ==> Valid(env, interval) && Stepped(old(Moment(env)), Moment(env), changed)
      ensures ok && !changed && log.ctx.Valid() && id in creds ==> CreatesNoted(log.ctx, Tables(env), id, ns, unknowns)
      ensures !ok ==> count > inp.maxDerivations
    {
      hide Sound, Stepped, Acts, Ready, PodsSettled, CtrlsSettled, CreatesNoted, Authorized, EnvGrew;
      ghost var m0 := Moment(env);
      SoundCtx(inp, mode, interval, m0);
      NotStepped(m0);
      changed, ok := false, true;
      NotAuthorizedToCreate(log.ctx, Tables(env), id, ns, unknowns);
      if Authorized(inp.st, env.bindings, creds[id].user, "create", "pods", ns, None) {
        changed, ok := CreatePodsIn(env, interval, id, ns);
        if !ok { return; }
      }
      ghost var m1 := Moment(env);
      SteppedKeeps(m0, m1, changed);
      ActsKept(m0.log.ctx, m0.tables, m1.tables, id);
      var more := false;
      NotStepped(m1);
      NotAuthorizedToCreate(log.ctx, Tables(env), id, ns, unknowns);
      if Authorized(inp.st, env.bindings, creds[id].user, "create", "deployments", ns, None) {
        more, ok := CreateCtrlsIn(env, interval, id, ns);
        if !ok { return; }
      }
      SteppedThen(m0, m1, Moment(env), changed, more);
      changed := changed || more;
      SteppedKeeps(m1, Moment(env), more);
      if !changed {
        SettledAllGrows(m0.log.ctx, m0.tables, id, ns, m1.unknowns, unknowns);
        SettledIsNoted(m0.log.ctx, m0.tables, id, ns, unknowns);
      }
    }

    method CreateEverywhere(env: LiveEnv, interval: int, id: CredId) returns (changed: bool, ok: bool)
      requires Valid(env, interval) && log.ctx.Valid() && id in creds && Acts(log.ctx, Tables(env), id)
      modifies this`count, this`facts, this`eph, this`log, this`unknowns, env`pods, env`controllers, env`podCounter
      ensures ok ==> Valid(env, interval) && Stepped(old(Moment(env)), Moment(env), changed)
      ensures ok && !changed && log.ctx.Valid() && id in creds ==> forall ns :: CreatesNoted(log.ctx, Tables(env), id, ns, unknowns)
      ensures !ok ==> count > inp.maxDerivations
    {
      hide Sound, Stepped, Ready, Acts, CreatesNoted, EnvGrew;
      ghost var m0 := Moment(env);
      SoundCtx(inp, mode, interval, m0);
      NotStepped(m0);
      changed, ok := false, true;
      var namespaces := (set a | a in env.serviceAccounts :: a.ns) + (set u | u in env.pods :: env.pods[u].ns);
      var todo := namespaces;
      while todo != {}
        invariant ok && Valid(env, interval) && Stepped(m0, Moment(env), changed) && todo <= namespaces && id in creds
        invariant log.ctx == m0.log.ctx && (!changed ==> Tables(env) == m0.tables)
        invariant !changed ==> forall ns :: ns in namespaces && ns !in todo ==> CreatesNoted(m0.log.ctx, m0.tables, id, ns, unknowns)
        decreases |todo|
      {
        var ns :| ns in todo;
        todo := todo - {ns};
        ghost var m1 := Moment(env);
        SteppedKeeps(m0, m1, changed);
        ActsKept(m0.log.ctx, m0.tables, Tables(env), id);
        var more;
        more, ok := CreateIn(env, interval, id, ns);
        if !ok { return; }
        SteppedThen(m0, m1, Moment(env), changed, more);
        changed := changed || more;
        SteppedKeeps(m0, Moment(env), changed);
        SteppedKeeps(m1, Moment(env), more);
        CreatesNotedGrow(m0.log.ctx, m0.tables, id, m1.unknowns, unknowns);
      }
      if !changed {
        forall ns
          ensures CreatesNoted(m0.log.ctx, m0.tables, id, ns, unknowns)
        {
          if ns !in namespaces { NoAccountNothingToCreate(m0.log.ctx, m0.tables, id, ns, unknowns); }
        }
      }
    }

    method ExecInto(env: LiveEnv, interval: int, id: CredId, u: Uid) returns (changed: bool, ok: bool)
      requires Valid(env, interval) && log.ctx == Ctx(inp.st, CurrentRule(), interval) && log.ctx.Valid()
      requires Acts(log.ctx, Tables(env), id) && u in env.pods
      modifies this`count, this`facts, this`eph, this`log
      ensures ok ==> Valid(env, interval) && Stepped(old(Moment(env)), Moment(env), changed)
      ensures ok && !changed && log.ctx.Valid() ==> !Ready(log.ctx, Tables(env), FireExec(id, u))
      ensures !ok ==> count > inp.maxDerivations
    {
      hide Stepped, Sound, Accepted, AuthorizingBindings;
      changed, ok := false, true;
      ghost var m0 := Moment(env);
      NotStepped(m0);
      var user, p := creds[id].user, env.pods[u];
      if Authorized(inp.st, env.bindings, user, "create", "pods/exec", p.ns, Some(p.name)) {
        var ctx := Ctx(inp.st, CurrentRule(), interval);
        changed, ok := Conclude(env, interval, FireExec(id, u), ControlsPod(u),
          Derivation(ExecPod, interval, [Possesses(id)] + ObjectPremises(u, p),
            [UseChecked(ctx, Tables(env), id), Authz(inp.st, env.Snapshot(), user, "create", "pods/exec", p.ns, Some(p.name))]));
      }
    }

    method ExecIntoAll(env: LiveEnv, interval: int, id: CredId) returns (changed: bool, ok: bool)
      requires Valid(env, interval) && log.ctx.Valid() && id in creds && Acts(log.ctx, Tables(env), id)
      modifies this`count, this`facts, this`eph, this`log
      ensures ok ==> Valid(env, interval) && Stepped(old(Moment(env)), Moment(env), changed)
      ensures ok && !changed && log.ctx.Valid() ==> ExecsDone(log.ctx, Tables(env), id)
      ensures !ok ==> count > inp.maxDerivations
    {
      hide Sound, Stepped, Ready, ExecsDone, ReadsDone, Acts, EnvGrew;
      ghost var m0 := Moment(env);
      SoundCtx(inp, mode, interval, m0);
      NotStepped(m0);
      changed, ok := false, true;
      var todo := env.pods.Keys;
      while todo != {}
        invariant ok && Valid(env, interval) && Stepped(m0, Moment(env), changed) && todo <= env.pods.Keys && id in creds
        invariant log.ctx == m0.log.ctx && inHistory == m0.inHistory && (!changed ==> Tables(env) == m0.tables)
        invariant !changed ==> forall u :: u in env.pods && u !in todo ==> !Ready(m0.log.ctx, m0.tables, FireExec(id, u))
        decreases |todo|
      {
        var u :| u in todo;
        todo := todo - {u};
        ghost var m1 := Moment(env);
        SteppedKeeps(m0, m1, changed);
        ActsKept(m0.log.ctx, m0.tables, Tables(env), id);
        var more;
        more, ok := ExecInto(env, interval, id, u);
        if !ok { return; }
        SteppedThen(m0, m1, Moment(env), changed, more);
        changed := changed || more;
        SteppedKeeps(m0, Moment(env), changed);
      }
      if !changed { OnlyLiveTargets(m0.log.ctx, m0.tables, id); }
    }

    /** Learns the current version of a Secret and notes that it is readable now. */
    method ReadSecretAs(env: LiveEnv, interval: int, id: CredId, k: SecretKey) returns (changed: bool, ok: bool)
      requires Valid(env, interval) && log.ctx == Ctx(inp.st, CurrentRule(), interval) && log.ctx.Valid()
      requires Acts(log.ctx, Tables(env), id) && k in env.secrets
      modifies this`count, this`facts, this`eph, this`log
      ensures ok ==> Valid(env, interval) && Stepped(old(Moment(env)), Moment(env), changed)
      ensures ok && !changed && log.ctx.Valid() ==> !Ready(log.ctx, Tables(env), FireLearn(id, k)) && !Ready(log.ctx, Tables(env), FireRead(id, k))
      ensures !ok ==> count > inp.maxDerivations
    {
      hide Stepped, Sound, Accepted, CanRead, ReadConditions, EnvGrew;
      ghost var m0 := Moment(env);
      NotStepped(m0);
      changed, ok := false, true;
      if !CanRead(inp.st, env.bindings, creds[id].user, k) { return; }
      var d := Derivation(ReadSecret, interval, [Possesses(id)], ReadConditions(Ctx(inp.st, CurrentRule(), interval), Tables(env), id, k));
      changed, ok := Conclude(env, interval, FireLearn(id, k), KnowsSecret(Known(k, env.secrets[k])), d);
      if !ok { return; }
      ghost var m1 := Moment(env);
      SteppedKeeps(m0, m1, changed);
      SameReadConditions(m0.log.ctx, m0.tables, m1.tables, id, k);
      ActsKept(m0.log.ctx, m0.tables, m1.tables, id);
      var more;
      more, ok := Conclude(env, interval, FireRead(id, k), CanReadSecret(k), d);
      if !ok { return; }
      SteppedThen(m0, m1, Moment(env), changed, more);
      changed := changed || more;
    }

    method ReadAll(env: LiveEnv, interval: int, id: CredId) returns (changed: bool, ok: bool)
      requires Valid(env, interval) && log.ctx.Valid() && id in creds && Acts(log.ctx, Tables(env), id)
      modifies this`count, this`facts, this`eph, this`log
      ensures ok ==> Valid(env, interval) && Stepped(old(Moment(env)), Moment(env), changed)
      ensures ok && !changed && log.ctx.Valid() ==> ReadsDone(log.ctx, Tables(env), id)
      ensures !ok ==> count > inp.maxDerivations
    {
      hide Sound, Stepped, Ready, ExecsDone, ReadsDone, Acts, EnvGrew;
      ghost var m0 := Moment(env);
      SoundCtx(inp, mode, interval, m0);
      NotStepped(m0);
      changed, ok := false, true;
      var todo := env.secrets.Keys;
      while todo != {}
        invariant ok && Valid(env, interval) && Stepped(m0, Moment(env), changed) && todo <= env.secrets.Keys && id in creds
        invariant log.ctx == m0.log.ctx && inHistory == m0.inHistory && (!changed ==> Tables(env) == m0.tables)
        invariant !changed ==> forall k :: k in env.secrets && k !in todo ==>
          !Ready(m0.log.ctx, m0.tables, FireLearn(id, k)) && !Ready(m0.log.ctx, m0.tables, FireRead(id, k))
        decreases |todo|
      {
        var k :| k in todo;
        todo := todo - {k};
        ghost var m1 := Moment(env);
        SteppedKeeps(m0, m1, changed);
        ActsKept(m0.log.ctx, m0.tables, Tables(env), id);
        var more;
        more, ok := ReadSecretAs(env, interval, id, k);
        if !ok { return; }
        SteppedThen(m0, m1, Moment(env), changed, more);
        changed := changed || more;
        SteppedKeeps(m0, Moment(env), changed);
      }
      if !changed { OnlyLiveTargets(m0.log.ctx, m0.tables, id); }
    }

    /** Every API request one credential can make. */
    method Requests(env: LiveEnv, interval: int, id: CredId) returns (changed: bool, ok: bool)
      requires Valid(env, interval) && Possesses(id) in facts && id in creds
      modifies this`count, this`facts, this`eph, this`log, this`unknowns, env`pods, env`controllers, env`podCounter
      ensures ok ==> Valid(env, interval) && Stepped(old(Moment(env)), Moment(env), changed)
      ensures ok && !changed && log.ctx.Valid() && id in creds ==>
        RequestsDone(log.ctx, Tables(env), id) && RequestsNoted(log.ctx, Tables(env), id, unknowns)
      ensures !ok ==> count > inp.maxDerivations
    {
      hide Sound, Stepped, Ready, CreatesNoted, ExecsDone, ReadsDone, CredentialUsable, EnvGrew, RequestsDone, RequestsNoted;
      ghost var m0 := Moment(env);
      SoundCtx(inp, mode, interval, m0);
      NotStepped(m0);
      changed, ok := false, true;
      var usable := Usable(env, id);
      ghost var m1 := Moment(env);
      NotedOnly(m0, m1);
      NotedSound(inp, mode, interval, m0, m1);
      AcceptedAnyInterval(inp.st, CurrentRule(), 0, interval);
      if !usable {
        InactiveDone(log.ctx, Tables(env), id, unknowns);
        return;
      }
      changed, ok := CreateEverywhere(env, interval, id);
      if !ok { return; }
      ghost var m2 := Moment(env);
      SteppedThen(m0, m1, m2, false, changed);
      SteppedKeeps(m0, m2, changed);
      SteppedKeeps(m1, m2, changed);
      ActsKept(m0.log.ctx, m0.tables, m2.tables, id);
      var more, rest := FollowUp(env, interval, id);
      ok := rest;
      if !ok { return; }
      SteppedThen(m0, m2, Moment(env), changed, more);
      changed := changed || more;
      SteppedKeeps(m2, Moment(env), more);
      if !changed { ActiveDone(m0.log.ctx, m0.tables, id, m2.unknowns, unknowns); }
    }

    /** Exec and read requests, after the creations. */
    method FollowUp(env: LiveEnv, interval: int, id: CredId) returns (changed: bool, ok: bool)
      requires Valid(env, interval) && log.ctx.Valid() && id in creds && Acts(log.ctx, Tables(env), id)
      modifies this`count, this`facts, this`eph, this`log
      ensures ok ==> Valid(env, interval) && Stepped(old(Moment(env)), Moment(env), changed)
      ensures ok && !changed && log.ctx.Valid() ==> ExecsDone(log.ctx, Tables(env), id) && ReadsDone(log.ctx, Tables(env), id)
      ensures !ok ==> count > inp.maxDerivations
    {
      hide Sound, Stepped, Ready, ExecsDone, ReadsDone, Acts, EnvGrew;
      ghost var m0 := Moment(env);
      SoundCtx(inp, mode, interval, m0);
      changed, ok := ExecIntoAll(env, interval, id);
      if !ok { return; }
      ghost var m1 := Moment(env);
      SteppedKeeps(m0, m1, changed);
      ActsKept(m0.log.ctx, m0.tables, m1.tables, id);
      var more;
      more, ok := ReadAll(env, interval, id);
      if !ok { return; }
      SteppedThen(m0, m1, Moment(env), changed, more);
      changed := changed || more;
      SteppedKeeps(m1, Moment(env), more);
    }

    /** Credential-driven API requests, for every credential held when the pass reaches them. */
    method AllRequests(env: LiveEnv, interval: int) returns (changed: bool, ok: bool)
      requires Valid(env, interval)
      modifies this`count, this`facts, this`eph, this`log, this`unknowns, env`pods, env`controllers, env`podCounter
      ensures ok ==> Valid(env, interval) && Stepped(old(Moment(env)), Moment(env), changed)
      ensures ok && !changed && log.ctx.Valid() ==> forall id :: RequestsDone(log.ctx, Tables(env), id)
      ensures ok && !changed ==> forall id :: id in creds ==> RequestsNoted(log.ctx, Tables(env), id, unknowns)
      ensures !ok ==> count > inp.maxDerivations
    {
      hide Sound, Stepped, Ready, RequestsDone, RequestsNoted, EnvGrew;
      ghost var m0 := Moment(env);
      SoundCtx(inp, mode, interval, m0);
      NotStepped(m0);
      changed, ok := false, true;
      SoundCreds(inp, mode, interval, m0);
      var held := set f | f in facts && f.Possesses?;
      var todo := held;
      while todo != {}
        invariant ok && Valid(env, interval) && Stepped(m0, Moment(env), changed) && todo <= held && held <= facts.Keys
        invariant m0.tables.creds.Keys <= creds.Keys && log.ctx == m0.log.ctx && (!changed ==> Tables(env) == m0.tables)
        invariant !changed ==> forall f :: f in held && f !in todo ==>
          RequestsDone(m0.log.ctx, m0.tables, f.cred) && RequestsNoted(m0.log.ctx, m0.tables, f.cred, unknowns)
        decreases |todo|
      {
        var f :| f in todo;
        todo := todo - {f};
        ghost var m1 := Moment(env);
        SteppedKeeps(m0, m1, changed);
        var more;
        more, ok := Requests(env, interval, f.cred);
        if !ok { return; }
        SteppedThen(m0, m1, Moment(env), changed, more);
        changed := changed || more;
        SteppedKeeps(m0, Moment(env), changed);
        SteppedKeeps(m1, Moment(env), more);
        forall x | x in held
          ensures RequestsNoted(m0.log.ctx, m0.tables, x.cred, m1.unknowns) ==> RequestsNoted(m0.log.ctx, m0.tables, x.cred, unknowns)
        {
          if RequestsNoted(m0.log.ctx, m0.tables, x.cred, m1.unknowns) { NotedGrows(m0.log.ctx, m0.tables, x.cred, m1.unknowns, unknowns); }
        }
      }
      if !changed {
        forall id
          ensures RequestsDone(m0.log.ctx, m0.tables, id)
        {
          if Possesses(id) in m0.tables.facts { assert Possesses(id) in held; } else { NoActionNoRequests(m0.log.ctx, m0.tables, id); }
        }
        forall id | id in m0.tables.creds
          ensures RequestsNoted(m0.log.ctx, m0.tables, id, unknowns)
        {
          assert Possesses(id) in held;
        }
      }
    }

    // -------------------------------------------------------------- downstream

    method UseSource(env: LiveEnv, interval: int, k: Known, name: string) returns (changed: bool, ok: bool)
      requires Valid(env, interval) && log.ctx == Ctx(inp.st, CurrentRule(), interval) && log.ctx.Valid()
      requires KnowsSecret(k) in facts && name in env.services
      modifies this`count, this`facts, this`eph, this`log
      ensures ok ==> Valid(env, interval) && Stepped(old(Moment(env)), Moment(env), changed)
      ensures ok && !changed && log.ctx.Valid() ==> !Ready(log.ctx, Tables(env), FireDownstream(k, name))
      ensures !ok ==> count > inp.maxDerivations
    {
      hide Stepped, Sound;
      changed, ok := false, true;
      NotStepped(Moment(env));
      if env.services[name].source == k.secret {
        changed, ok := Conclude(env, interval, FireDownstream(k, name), PossessesDownstream(name, k.version),
          Derivation(DownstreamCredential, interval, [KnowsSecret(k)], [ServiceSources(name, k.secret)]));
      }
    }

    method UseSources(env: LiveEnv, interval: int, k: Known) returns (changed: bool, ok: bool)
      requires Valid(env, interval) && KnowsSecret(k) in facts
      modifies this`count, this`facts, this`eph, this`log
      ensures ok ==> Valid(env, interval) && Stepped(old(Moment(env)), Moment(env), changed)
      ensures ok && !changed && log.ctx.Valid() ==> SourcesDone(log.ctx, Tables(env), k)
      ensures !ok ==> count > inp.maxDerivations
    {
      hide Sound, Stepped, Ready, SourcesDone;
      ghost var m0 := Moment(env);
      SoundCtx(inp, mode, interval, m0);
      NotStepped(m0);
      changed, ok := false, true;
      var todo := env.services.Keys;
      while todo != {}
        invariant ok && Valid(env, interval) && Stepped(m0, Moment(env), changed) && todo <= env.services.Keys && KnowsSecret(k) in facts
        invariant log.ctx == m0.log.ctx && inHistory == m0.inHistory && (!changed ==> Tables(env) == m0.tables)
        invariant !changed ==> forall n :: n in env.services && n !in todo ==> !Ready(m0.log.ctx, m0.tables, FireDownstream(k, n))
        decreases |todo|
      {
        var n :| n in todo;
        todo := todo - {n};
        ghost var m1 := Moment(env);
        SteppedKeeps(m0, m1, changed);
        var more;
        more, ok := UseSource(env, interval, k, n);
        if !ok { return; }
        SteppedThen(m0, m1, Moment(env), changed, more);
        changed := changed || more;
        SteppedKeeps(m0, Moment(env), changed);
      }
      SourcesOnly(m0.log.ctx, m0.tables, k);
    }

    /** Knowledge of a Secret is possession of the downstream credential derived from it. */
    method Downstream(env: LiveEnv, interval: int) returns (changed: bool, ok: bool)
      requires Valid(env, interval)
      modifies this`count, this`facts, this`eph, this`log
      ensures ok ==> Valid(env, interval) && Stepped(old(Moment(env)), Moment(env), changed)
      ensures ok && !changed && log.ctx.Valid() ==> forall k :: SourcesDone(log.ctx, Tables(env), k)
      ensures !ok ==> count > inp.maxDerivations
    {
      hide Sound, Stepped, Ready, SourcesDone;
      ghost var m0 := Moment(env);
      SoundCtx(inp, mode, interval, m0);
      NotStepped(m0);
      changed, ok := false, true;
      var known := set f | f in facts && f.KnowsSecret?;
      var todo := known;
      while todo != {}
        invariant ok && Valid(env, interval) && Stepped(m0, Moment(env), changed) && todo <= known && known <= facts.Keys
        invariant log.ctx == m0.log.ctx && (!changed ==> Tables(env) == m0.tables)
        invariant !changed ==> forall f :: f in known && f !in todo ==> SourcesDone(m0.log.ctx, m0.tables, f.known)
        decreases |todo|
      {
        var f :| f in todo;
        todo := todo - {f};
        ghost var m1 := Moment(env);
        SteppedKeeps(m0, m1, changed);
        var more;
        more, ok := UseSources(env, interval, f.known);
        if !ok { return; }
        SteppedThen(m0, m1, Moment(env), changed, more);
        changed := changed || more;
        SteppedKeeps(m0, Moment(env), changed);
      }
      if !changed {
        forall k
          ensures SourcesDone(m0.log.ctx, m0.tables, k)
        {
          if KnowsSecret(k) in m0.tables.facts { assert KnowsSecret(k) in known; } else { SourcesOnly(m0.log.ctx, m0.tables, k); }
        }
      }
    }

    method UseService(env: LiveEnv, interval: int, name: string, version: int) returns (changed: bool, ok: bool)
      requires Valid(env, interval) && log.ctx == Ctx(inp.st, CurrentRule(), interval) && log.ctx.Valid()
      requires PossessesDownstream(name, version) in facts
      modifies this`count, this`facts, this`eph, this`log
      ensures ok ==> Valid(env, interval) && Stepped(old(Moment(env)), Moment(env), changed)
      ensures ok && !changed && log.ctx.Valid() ==> !Ready(log.ctx, Tables(env), FireUse(name, version))
      ensures !ok ==> count > inp.maxDerivations
    {
      hide Stepped, Sound;
      changed, ok := false, true;
      NotStepped(Moment(env));
      if name in env.services && env.services[name].Accepts(version, env.time) {
        changed, ok := Conclude(env, interval, FireUse(name, version), CanUseDownstream(name),
          Derivation(UseDownstream, interval, [PossessesDownstream(name, version)], [ServiceAccepts(name, version)]));
      }
    }

    method UseServices(env: LiveEnv, interval: int) returns (changed: bool, ok: bool)
      requires Valid(env, interval)
      modifies this`count, this`facts, this`eph, this`log
      ensures ok ==> Valid(env, interval) && Stepped(old(Moment(env)), Moment(env), changed)
      ensures ok && !changed && log.ctx.Valid() ==> forall n, v :: !Ready(log.ctx, Tables(env), FireUse(n, v))
      ensures !ok ==> count > inp.maxDerivations
    {
      hide Sound, Stepped, Ready;
      ghost var m0 := Moment(env);
      SoundCtx(inp, mode, interval, m0);
      NotStepped(m0);
      changed, ok := false, true;
      var held := set f | f in facts && f.PossessesDownstream?;
      var todo := held;
      while todo != {}
        invariant ok && Valid(env, interval) && Stepped(m0, Moment(env), changed) && todo <= held && held <= facts.Keys
        invariant log.ctx == m0.log.ctx && inHistory == m0.inHistory && (!changed ==> Tables(env) == m0.tables)
        invariant !changed ==> forall f :: f in held && f !in todo ==> !Ready(m0.log.ctx, m0.tables, FireUse(f.service, f.version))
        decreases |todo|
      {
        var f :| f in todo;
        todo := todo - {f};
        ghost var m1 := Moment(env);
        SteppedKeeps(m0, m1, changed);
        var more;
        more, ok := UseService(env, interval, f.service, f.version);
        if !ok { return; }
        SteppedThen(m0, m1, Moment(env), changed, more);
        changed := changed || more;
        SteppedKeeps(m0, Moment(env), changed);
      }
      if !changed {
        forall n, v
          ensures !Ready(m0.log.ctx, m0.tables, FireUse(n, v))
        {
          if PossessesDownstream(n, v) in m0.tables.facts { assert PossessesDownstream(n, v) in held; } else { NoCredentialNoUse(m0.log.ctx, m0.tables, n, v); }
        }
      }
    }

    // -------------------------------------------------------------- saturation

    /** One pass over all rules, in the engine's order. */
    method Pass(env: LiveEnv, interval: int) returns (changed: bool, ok: bool)
      requires Valid(env, interval)
      modifies this`count, this`facts, this`creds, this`eph, this`log, this`unknowns, env`pods, env`controllers, env`podCounter
      ensures ok ==> Valid(env, interval) && Stepped(old(Moment(env)), Moment(env), changed)
      ensures ok && !changed && log.ctx.Valid() ==> Closed(log.ctx, Tables(env))
      ensures ok && !changed ==> AllNoted(log.ctx, Tables(env), unknowns)
      ensures !ok ==> count > inp.maxDerivations
    {
      hide Sound, Stepped, Ready, OwnDone, TokensDone, RequestsDone, SourcesDone, EnvGrew, Closed, RequestsNoted;
      ghost var m0 := Moment(env);
      SoundCtx(inp, mode, interval, m0);
      changed, ok := ControllerPods(env, interval);
      if !ok { return; }
      ghost var m1 := Moment(env);
      var more;
      more, ok := ProjectedTokens(env, interval);
      if !ok { return; }
      ghost var m2 := Moment(env);
      SteppedThen(m0, m1, m2, changed, more);
      SteppedKeeps(m1, m2, more);
      changed := changed || more;
      SteppedKeeps(m0, m2, changed);
      more, ok := AllRequests(env, interval);
      if !ok { return; }
      ghost var m3 := Moment(env);
      SteppedThen(m0, m2, m3, changed, more);
      changed := changed || more;
      SteppedKeeps(m0, m3, changed);
      var rest;
      more, rest := DownstreamRules(env, interval);
      ok := rest;
      if !ok { return; }
      SteppedThen(m0, m3, Moment(env), changed, more);
      SteppedKeeps(m3, Moment(env), more);
      changed := changed || more;
      if !changed {
        BlocksClosed(m0.log.ctx, m0.tables);
      }
    }

    method DownstreamRules(env: LiveEnv, interval: int) returns (changed: bool, ok: bool)
      requires Valid(env, interval)
      modifies this`count, this`facts, this`eph, this`log
      ensures ok ==> Valid(env, interval) && Stepped(old(Moment(env)), Moment(env), changed)
      ensures ok && !changed && log.ctx.Valid() ==>
        (forall k :: SourcesDone(log.ctx, Tables(env), k)) && (forall n, v :: !Ready(log.ctx, Tables(env), FireUse(n, v)))
      ensures !ok ==> count > inp.maxDerivations
    {
      hide Sound, Stepped, Ready, SourcesDone, EnvGrew;
      ghost var m0 := Moment(env);
      SoundCtx(inp, mode, interval, m0);
      changed, ok := Downstream(env, interval);
      if !ok { return; }
      ghost var m1 := Moment(env);
      SteppedKeeps(m0, m1, changed);
      var more;
      more, ok := UseServices(env, interval);
      if !ok { return; }
      SteppedThen(m0, m1, Moment(env), changed, more);
      SteppedKeeps(m1, Moment(env), more);
      changed := changed || more;
    }

    /** Saturates one interval. Terminates whatever the cap: each changing pass is a step down. */
    method Closure(env: LiveEnv, interval: int, ghost from: Env) returns (ok: bool)
      requires Plain(inp) && Good(interval, State(env.Snapshot(), creds, facts, map[])) && EnvInv(from, env.Snapshot())
      modifies this`count, this`facts, this`creds, this`eph, this`log, this`base, this`unknowns, env`pods, env`controllers, env`podCounter
      ensures ok ==> old(unknowns) <= unknowns
      ensures ok && inp.st.api != [] ==> Saturates(Ctx(inp.st, CurrentRule(), interval), old(State(env.Snapshot(), creds, facts, map[])), Tables(env))
      ensures ok ==> AllNoted(Ctx(inp.st, CurrentRule(), interval), Tables(env), unknowns)
      ensures !ok ==> count > inp.maxDerivations
    {
      hide Good, EnvInv, Stepped, Below, DistanceOf, AllNoted;
      eph := map[];
      log := Log(Ctx(inp.st, CurrentRule(), interval), Tables(env), []);
      base := from;
      ghost var m0 := Moment(env);
      var changed := true;
      ok := true;
      NotStepped(m0);
      while changed
        invariant ok && Valid(env, interval) && log.ctx == m0.log.ctx && log.start == m0.log.start && m0.unknowns <= unknowns
        invariant log.ctx.Valid()
        invariant !changed ==> Closed(log.ctx, Tables(env)) && AllNoted(log.ctx, Tables(env), unknowns)
        decreases DistanceOf(log.ctx, Tables(env)).workloads, DistanceOf(log.ctx, Tables(env)).pods,
                  DistanceOf(log.ctx, Tables(env)).secrets, DistanceOf(log.ctx, Tables(env)).tokens,
                  DistanceOf(log.ctx, Tables(env)).sources, DistanceOf(log.ctx, Tables(env)).goals, changed
      {
        ghost var m1 := Moment(env);
        changed, ok := Pass(env, interval);
        if !ok { return; }
        SteppedKeeps(m1, Moment(env), changed);
        if changed {
          SteppedBelow(inp, mode, interval, m1, Moment(env));
          BelowCases(DistanceOf(log.ctx, Tables(env)), DistanceOf(log.ctx, m1.tables));
        }
      }
    }

    // -------------------------------------------------------------- starting state

    /** Loads the initial facts this view and mode keep. */
    method Initialise()
      requires Plain(inp) && facts == map[] && creds == map[]
      modifies this`facts, this`creds
      ensures facts == InitialState(inp, view, mode).facts && creds == InitialState(inp, view, mode).creds
    {
      for i := 0 to |inp.facts|
        invariant facts == FactTable(inp.facts[..i], view, mode) && creds == CredTable(inp, facts.Keys)
      {
        var f := inp.facts[i];
        assert inp.facts[..i + 1] == inp.facts[..i] + [f];
        assert ClaimParses(inp, f.claim);
        OneMoreFact(inp, inp.facts[..i], f, view, mode);
        if Kept(f, view, mode) {
          if f.claim.ClaimCred? {
            creds := creds[f.claim.cred := inp.credentials[f.claim.cred]];
          }
          facts := facts[FactOf(f.claim) := EVIDENCE];
        }
      }
      assert inp.facts[..|inp.facts|] == inp.facts;
      AllFacts(inp, view, mode);
    }

    /** Puts the historical Pods back into a scratch environment; the attacker controlled each. */
    method Recall(henv: LiveEnv)
      requires henv.Snapshot() == inp.env && facts == InitialState(inp, view, mode).facts
      modifies henv`pods, this`facts
      ensures henv.Snapshot() == HistoryEnv(inp, view, mode) && facts == HistoryStart(inp, view, mode).facts
    {
      hide HistoricalPod, KeptHistorical, InitialState, WithRows, RowsOf, KeptUids, RecalledFacts;
      ghost var f0 := facts;
      NoRows(inp.env, view, mode);
      NothingRecalled();
      assert RecalledFacts({}) + f0 == f0;
      for i := 0 to |inp.historical|
        invariant henv.Snapshot() == WithRows(inp.env, RowsOf(inp.historical[..i], view, mode))
        invariant facts == RecalledFacts(KeptUids(inp.historical[..i], view, mode)) + f0
      {
        var h := inp.historical[i];
        assert inp.historical[..i + 1] == inp.historical[..i] + [h];
        OneMoreRow(inp.env, inp.historical[..i], h, view, mode);
        OneMoreControl(KeptUids(inp.historical[..i], view, mode), h.uid, f0);
        if KeptHistorical(h, view, mode) {
          if h.uid !in henv.pods {
            henv.pods := henv.pods[h.uid := HistoricalPod(h.uid, h.account)];
          }
          if ControlsPod(h.uid) !in facts {
            facts := facts[ControlsPod(h.uid) := EVIDENCE];
          }
        } else {
          assert KeptUids(inp.historical[..i + 1], view, mode) == KeptUids(inp.historical[..i], view, mode);
        }
      }
      assert inp.historical[..|inp.historical|] == inp.historical;
      RecalledAll(inp, view, mode);
    }

    /** Saturates a scratch copy of the environment under the window rule. */
    method SaturateHistory(env: LiveEnv) returns (ok: bool, ghost h: State)
      requires Plain(inp) && env.Snapshot() == inp.env && !inHistory
      requires facts == InitialState(inp, view, mode).facts && creds == InitialState(inp, view, mode).creds
      modifies this
      ensures ok ==> !inHistory && creds == h.creds && facts == h.facts && inp.st.api != []
      ensures ok && inp.st.api != [] ==> NotedHistory(inp, view, mode, h, unknowns)
      ensures !ok ==> count > inp.maxDerivations
    {
      hide InitialState, HistoryStart, HistoryEnv, HistoricalPods, Saturates, Good, EnvInv, Plain, AllNoted;
      var henv := new LiveEnv.Clone(env);
      Recall(henv);
      inHistory := true;
      HistoryGood(inp, view, mode);
      HistoryShape(inp, view, mode);
      NonEmptyApi(inp);
      ok := Closure(henv, -1, HistoryEnv(inp, view, mode));
      h := Tables(henv);
      if !ok { return; }
      inHistory := false;
    }

    /** The possible-history phase, when this view has one. */
    method HistoryPhase(env: LiveEnv) returns (ok: bool)
      requires Plain(inp) && env.Snapshot() == inp.env && !inHistory
      requires facts == InitialState(inp, view, mode).facts && creds == InitialState(inp, view, mode).creds
      modifies this
      ensures ok ==> !inHistory && inp.st.api != []
      ensures ok ==> var start := MainStart(inp, State(inp.env, creds, facts, map[]));
        inp.st.api != [] && StartsMain(inp, view, mode, start) && HistoryNoted(inp, view, mode, start, unknowns)
      ensures !ok ==> count > inp.maxDerivations
    {
      hide InitialState, HistoryStart, HistoricalPods, Saturates, Reconcile, Plain, AllNoted;
      ok := true;
      NonEmptyApi(inp);
      var expired := exists id :: id in creds && creds[id].expires.Some? && creds[id].expires.value <= inp.env.time;
      if view.ConservativePossible? && (HistoricalPods(inp, view, mode) != {} || expired) {
        ghost var h;
        ok, h := SaturateHistory(env);
        if !ok { return; }
        assert MainStart(inp, State(inp.env, creds, facts, map[])) == MainStart(inp, h);
      }
    }

    // -------------------------------------------------------------- interval by interval

    /** Full and lifecycle-blind modes: saturate before the first action and after each one. */
    method MainPhase(env: LiveEnv, ghost start: State) returns (goals: map<Fact, Derivation>, intervals: seq<IntervalRecord>, ok: bool, ghost stages: seq<State>)
      requires Plain(inp) && !inHistory && (mode.Full? || mode.WithoutLifecycle?) && inp.st.api != []
      requires start == State(Reconcile(inp.env), creds, facts, map[]) && Good(0, start) && env.Snapshot() == Reconcile(inp.env)
      modifies this, env
      ensures ok ==> Ladder(inp, MainRule(mode), start, stages) && RecordsOf(intervals, stages)
      ensures ok ==> Tables(env) == stages[|inp.actions|] && goals == eph
      ensures ok ==> NotedThroughout(inp, MainRule(mode), stages, unknowns) && old(unknowns) <= unknowns
      ensures !ok ==> count > inp.maxDerivations
    {
      hide Good, EnvInv, Reconcile, Defend, Saturates, AllNoted, Plain;
      goals, intervals, stages := map[], [], [];
      MainEnvGood(inp);
      ok := Closure(env, 0, Base(inp, 0));
      if !ok { return; }
      stages := [Tables(env)];
      goals := eph;
      intervals := [IntervalRecord(0, env.time, eph.Keys)];
      FirstRung(inp, MainRule(mode), start, stages[0]);
      for i := 0 to |inp.actions|
        invariant Climb(inp, MainRule(mode), start, stages) && |stages| == i + 1 && Tables(env) == stages[i] && !inHistory
        invariant StageGood(inp, stages[i], i) && NotedThroughout(inp, MainRule(mode), stages, unknowns)
        invariant RecordsOf(intervals, stages) && goals == eph && old(unknowns) <= unknowns
      {
        env.ApplyDefenderAction(inp.actions[i]);
        var _ := env.ReconcileControllers();
        NextRungGood(inp, stages[i], i);
        ghost var noted := unknowns;
        ok := Closure(env, i + 1, Base(inp, i + 1));
        if !ok { return; }
        NotedLonger(inp, MainRule(mode), stages, noted, unknowns);
        NextRung(inp, MainRule(mode), start, stages, Tables(env));
        stages := stages + [Tables(env)];
        goals := eph;
        intervals := intervals + [IntervalRecord(i + 1, env.time, eph.Keys)];
      }
    }

    /** Baseline modes: apply every action first, then saturate once. */
    method FinalPhase(env: LiveEnv, ghost start: State) returns (ok: bool)
      requires Plain(inp) && !inHistory && (mode.FinalState? || mode.SnapshotOnly?) && inp.st.api != []
      requires start == State(Reconcile(inp.env), creds, facts, map[]) && Good(0, start) && env.Snapshot() == inp.env
      modifies this, env
      ensures ok ==> Saturates(Ctx(inp.st, Now, 0), start.(env := FinalEnv(inp.env, inp.actions)), Tables(env))
      ensures !ok ==> count > inp.maxDerivations
    {
      hide Good, EnvInv, Reconcile, Defend, Saturates, AllNoted;
      assert inp.actions[..0] == [];
      for i := 0 to |inp.actions|
        invariant env.Snapshot() == FinalEnv(inp.env, inp.actions[..i])
        modifies env
      {
        assert inp.actions[..i + 1][..i] == inp.actions[..i];
        env.ApplyDefenderAction(inp.actions[i]);
        var _ := env.ReconcileControllers();
      }
      assert inp.actions[..|inp.actions|] == inp.actions;
      FinalEnvGood(inp, start);
      ok := Closure(env, 0, FinalEnv(inp.env, inp.actions));
    }
  }

  // ---------------------------------------------------------------- running a view

  /** Evaluates one view of an input. Unless the cap was hit, the outcome reports the fixpoints
      of a complete engine run; the baselines report their single fixpoint. */
  method RunView(inp: Input, view: Perspective, mode: Mode) returns (r: Outcome)
    requires Plain(inp)
    ensures !r.boundsExceeded ==> inp.st.api != []
    ensures !r.boundsExceeded && (mode.Full? || mode.WithoutLifecycle?) ==>
      Finished(inp, view, mode, r)
    ensures !r.boundsExceeded && (mode.FinalState? || mode.SnapshotOnly?) ==>
      exists after :: BaselineRun(inp, view, mode, after) && r.goals == after.eph && r.facts == after.facts
    ensures r.boundsExceeded ==> r.count > inp.maxDerivations
  {
    hide Good, StartsMain, Ladder, Saturates, Reconcile, InitialState, RecordsOf, NotedThroughout, FinalEnv, HistoryNoted;
    var run := new Engine(inp, view, mode);
    run.Initialise();
    var env := new LiveEnv.FromInventory(inp.env);
    var ok := run.HistoryPhase(env);
    if !ok { return Outcome(map[], run.facts, run.creds, [], run.unknowns, true, env.Snapshot(), run.count); }
    ghost var start := MainStart(inp, State(inp.env, run.creds, run.facts, map[]));
    StartGood(inp, view, mode, start);
    if mode.FinalState? || mode.SnapshotOnly? {
      ok := run.FinalPhase(env, start);
      var intervals := if ok then [IntervalRecord(0, env.time, run.eph.Keys)] else [];
      var goals := if ok then run.eph else map[];
      r := Outcome(goals, run.facts, run.creds, intervals, run.unknowns, !ok, env.Snapshot(), run.count);
      if ok { assert BaselineRun(inp, view, mode, run.Tables(env)); }
    } else {
      var _ := env.ReconcileControllers();
      var goals, intervals;
      ghost var stages;
      ghost var noted := run.unknowns;
      goals, intervals, ok, stages := run.MainPhase(env, start);
      r := Outcome(goals, run.facts, run.creds, intervals, run.unknowns, !ok, env.Snapshot(), run.count);
      if ok {
        LadderLength(inp, MainRule(mode), start, stages);
        HistoryNotedMore(inp, view, mode, start, noted, r.unknowns);
        assert FinishedBy(inp, view, mode, r, start, stages);
      }
    }
  }
}
