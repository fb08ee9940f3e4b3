/** Single attacker steps and their interleavings with defender actions. Created objects may
    take any fresh UID and there is no bound on how many are alive, so the runs below include
    the engine's own and every run of the reference explorer. */
module Attack {
  import opened Model
  import opened Semantics

  datatype Known = Known(secret: SecretKey, version: int)

  /** What the attacker holds: credentials, controlled objects and learned Secret versions. */
  datatype Att = Att(creds: set<Cred>, pods: set<Uid>, ctrls: set<Uid>, know: set<Known>)

  datatype World = World(env: Env, att: Att)

  /** When a credential use is evaluated (S-TOK-1): at the instant of the environment, at some
      instant of the history window, or (lifecycle-blind baseline) never rejected. */
  datatype UseRule = Now | Window(start: Option<int>) | Blind

  ghost predicate CanUse(st: Static, e: Env, c: Cred, rule: UseRule) {
    match rule
    case Now => CredentialUsable(st, e, c, e.time).Usable?
    case Window(lo) =>
      exists t :: (lo.None? || lo.value <= t) && t <= e.time && CredentialUsable(st, e, c, t).Usable?
    case Blind => !CredentialUsable(st, e, c, e.time).Unsupported?
  }

  function Audiences(st: Static, p: Pod): seq<string>
    requires st.api != []
  {
    if p.audiences == [] then [st.api[0]] else p.audiences
  }

  function Token(st: Static, e: Env, pod: Uid, aud: string): Cred
    requires pod in e.pods && e.pods[pod].Acct() in e.sas
  {
    var a := e.pods[pod].Acct();
    Cred(Projected(pod, aud), "sa_token", SaUser(a), Some(e.sas[a]), Some(pod), aud, Some(e.time + st.ttl))
  }

  datatype Act =
    | Obtain(pod: Uid, aud: string)
    | Own(pod: Uid)
    | Read(cred: Cred, secret: SecretKey)
    | Exec(cred: Cred, pod: Uid)
    | NewPod(cred: Cred, account: Account, uid: Uid)
    | NewCtrl(cred: Cred, account: Account, uid: Uid, fromZero: bool)

  predicate MayCreate(st: Static, e: Env, user: User, a: Account, resource: string) {
    && a in e.sas
    && Authorized(st, e.bindings, user, "create", resource, a.ns, None)
    && AdmissionDecision(st, user, a.ns, a.name).Allow?
  }

  predicate MayExec(st: Static, e: Env, user: User, pod: Uid) {
    pod in e.pods && Authorized(st, e.bindings, user, "create", "pods/exec", e.pods[pod].ns, Some(e.pods[pod].name))
  }

  ghost predicate Enabled(st: Static, rule: UseRule, w: World, act: Act)
    requires st.api != []
  {
    var e, a := w.env, w.att;
    match act
    case Obtain(u, aud) => u in a.pods && u in e.pods && e.pods[u].Acct() in e.sas && aud in Audiences(st, e.pods[u])
    case Own(u) => u in e.pods && e.pods[u].owner.Some? && e.pods[u].owner.value in a.ctrls
    case Read(c, s) => c in a.creds && CanUse(st, e, c, rule) && s in e.secrets && CanRead(st, e.bindings, c.user, s)
    case Exec(c, u) => c in a.creds && CanUse(st, e, c, rule) && MayExec(st, e, c.user, u)
    case NewPod(c, acct, uid) =>
      && c in a.creds && CanUse(st, e, c, rule) && MayCreate(st, e, c.user, acct, "pods")
      && Standalone(uid) && uid.account == acct && uid !in e.pods
    case NewCtrl(c, acct, uid, _) =>
      && c in a.creds && CanUse(st, e, c, rule) && MayCreate(st, e, c.user, acct, "deployments")
      && CreatedDeploy(uid) && uid.account == acct && uid !in e.ctrls
  }

  function WithPod(e: Env, a: Account, uid: Uid): Env {
    e.(pods := e.pods[uid := Pod(a.ns, Text(uid), a.name, [], None)])
  }

  function Unreconciled(e: Env, a: Account, uid: Uid, fromZero: bool): Env {
    e.(ctrls := e.ctrls[uid := Controller(a.ns, Text(uid), a.name, [])],
       counters := if fromZero then e.counters[uid := -1] else e.counters)
  }

  function WithCtrl(e: Env, a: Account, uid: Uid, fromZero: bool): Env {
    Reconcile(Unreconciled(e, a, uid, fromZero))
  }

  /** The effect of a step; a step on something absent does nothing. */
  function Do(st: Static, w: World, act: Act): World {
    var e, a := w.env, w.att;
    match act
    case Obtain(u, aud) =>
      if u in e.pods && e.pods[u].Acct() in e.sas then World(e, a.(creds := a.creds + {Token(st, e, u, aud)})) else w
    case Own(u) => World(e, a.(pods := a.pods + {u}))
    case Read(_, s) => if s in e.secrets then World(e, a.(know := a.know + {Known(s, e.secrets[s])})) else w
    case Exec(_, u) => World(e, a.(pods := a.pods + {u}))
    case NewPod(_, acct, uid) => World(WithPod(e, acct, uid), a.(pods := a.pods + {uid}))
    case NewCtrl(_, acct, uid, z) => World(WithCtrl(e, acct, uid, z), a.(ctrls := a.ctrls + {uid}))
  }

  // ---------------------------------------------------------------- runs inside one interval

  /** The world after a sequence of attacker steps, or `None` when some step is not enabled. */
  ghost function RunActs(st: Static, rule: UseRule, w: World, acts: seq<Act>): Option<World>
    requires st.api != []
  {
    if acts == [] then Some(w)
    else
      var before := RunActs(st, rule, w, acts[..|acts| - 1]);
      var act := acts[|acts| - 1];
      if before.Some? && Enabled(st, rule, before.value, act) then Some(Do(st, before.value, act)) else None
  }

  lemma NoActs(st: Static, rule: UseRule, w: World)
    requires st.api != []
    ensures RunActs(st, rule, w, []) == Some(w)
  {
  }

  ghost predicate Reaches(st: Static, rule: UseRule, w: World, w': World)
    requires st.api != []
  {
    exists acts :: RunActs(st, rule, w, acts) == Some(w')
  }

  // ---------------------------------------------------------------- runs across intervals

  /** One move of an interleaving: an attacker step, or the defender's next action. */
  datatype Move = Attacker(act: Act) | Defender

  datatype Stage = Stage(phase: nat, world: World)

  function DefendWorld(w: World, a: Action): World {
    World(Reconcile(Defend(w.env, a)), w.att)
  }

  ghost function DoMove(st: Static, rule: UseRule, actions: seq<Action>, s: Stage, m: Move): Option<Stage>
    requires st.api != []
  {
    match m
    case Attacker(act) =>
      if Enabled(st, rule, s.world, act) then Some(Stage(s.phase, Do(st, s.world, act))) else None
    case Defender =>
      if s.phase < |actions| then Some(Stage(s.phase + 1, DefendWorld(s.world, actions[s.phase]))) else None
  }

  /** The stage after an interleaving of attacker and defender moves, or `None`. */
  ghost function Run(st: Static, rule: UseRule, actions: seq<Action>, s: Stage, moves: seq<Move>): Option<Stage>
    requires st.api != []
  {
    if moves == [] then Some(s)
    else
      var before := Run(st, rule, actions, s, moves[..|moves| - 1]);
      if before.Some? then DoMove(st, rule, actions, before.value, moves[|moves| - 1]) else None
  }

  lemma RunExtend(st: Static, rule: UseRule, actions: seq<Action>, s: Stage, moves: seq<Move>, m: Move)
    requires st.api != []
    ensures Run(st, rule, actions, s, moves + [m]) ==
      var before := Run(st, rule, actions, s, moves);
      if before.Some? then DoMove(st, rule, actions, before.value, m) else None
  {
    assert (moves + [m])[..|moves + [m]| - 1] == moves;
  }

  // ---------------------------------------------------------------- objectives

  datatype Objective = NoSecretRead(secret: SecretKey) | NoDownstreamUse(service: string)

  /** Whether the attacker violates the objective in this very state. */
  ghost predicate Violated(st: Static, rule: UseRule, w: World, o: Objective) {
    match o
    case NoSecretRead(s) =>
      s in w.env.secrets && exists c :: c in w.att.creds && CanUse(st, w.env, c, rule) && CanRead(st, w.env.bindings, c.user, s)
    case NoDownstreamUse(name) =>
      && name in w.env.services
      && var svc := w.env.services[name];
         exists k :: k in w.att.know && k.secret == svc.source && svc.Accepts(k.version, w.env.time)
  }
}
