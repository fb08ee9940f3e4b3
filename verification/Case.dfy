/** An analysis input, what the attacker starts with in each view and mode, and the shape of a
    complete engine run over the intervals of a remediation sequence. */
module Case {
  import opened Model
  import opened Semantics
  import opened Attack
  import opened Rules
  import opened Shape

  datatype Status = Observed | Assumed | Inferred

  datatype Claim = ClaimCred(cred: CredId) | ClaimPod(pod: Uid) | ClaimCtrl(ctrl: Uid) | ClaimKnown(known: Known)

  datatype InitialFact = InitialFact(claim: Claim, status: Status)

  /** A claim that the attacker controlled a Pod, by UID and account, that may no longer exist. */
  datatype Historical = Historical(uid: Uid, account: Account, status: Status)

  datatype LegitKind = MayReadSecret(secret: SecretKey) | MayUseService(service: string)
  datatype LegitOp = LegitOp(pod: Uid, kind: LegitKind)

  /** `env` is the inventory at analysis time. */
  datatype Input = Input(
    st: Static, env: Env, credentials: map<CredId, Cred>, facts: seq<InitialFact>, historical: seq<Historical>,
    actions: seq<Action>, objectives: seq<Objective>, legit: seq<LegitOp>, gaps: seq<string>,
    historyStart: Option<int>, maxDerivations: nat)

  datatype Perspective = EvidenceSupported | ConservativePossible

  datatype Mode = Full | SnapshotOnly | WithoutLifecycle | FinalState

  // ---------------------------------------------------------------- what the input must satisfy

  /** UIDs with the prefixes the parser reserves. */
  predicate ModelNamed(u: Uid) { Root(u).ModelPod? || Root(u).ModelDeploy? }

  predicate ClaimParses(inp: Input, c: Claim) {
    match c
    case ClaimCred(id) => id in inp.credentials
    case ClaimPod(u) => !ModelNamed(u)
    case ClaimCtrl(u) => !ModelNamed(u)
    case ClaimKnown(_) => true
  }

  predicate ActionParses(a: Action) {
    match a
    case DeletePod(u) => !ModelNamed(u)
    case DeleteController(u) => !ModelNamed(u)
    case _ => true
  }

  /** What the input parser guarantees (packages/afterlock/model.py). */
  ghost predicate Parsed(inp: Input) {
    && inp.st.Valid() && inp.env.counters == map[] && inp.objectives != []
    && (forall u :: u in inp.env.pods ==> !ModelNamed(u) && (inp.env.pods[u].owner.Some? ==> inp.env.pods[u].owner.value in inp.env.ctrls))
    && (forall c :: c in inp.env.ctrls ==> !ModelNamed(c))
    && (forall id :: id in inp.credentials ==> inp.credentials[id].id == id)
    && (forall f :: f in inp.facts ==> ClaimParses(inp, f.claim))
    && (forall h :: h in inp.historical ==> !ModelNamed(h.uid))
    && (forall a :: a in inp.actions ==> ActionParses(a))
    && (inp.historyStart.Some? ==> inp.historyStart.value <= inp.env.time)
  }

  // ---------------------------------------------------------------- what is assumed besides

  /** The names of the reference checker's own objects are not used either, nor does an action
      keep an object under a reserved name. */
  ghost predicate NothingReserved(inp: Input) {
    && (forall u :: u in inp.env.pods || u in inp.env.ctrls ==> !Created(u))
    && (forall f :: f in inp.facts ==> !(f.claim.ClaimPod? && Created(f.claim.pod)) && !(f.claim.ClaimCtrl? && Created(f.claim.ctrl)))
    && (forall h :: h in inp.historical ==> !Created(h.uid))
    && (forall a :: a in inp.actions ==> NativeAction(a))
  }

  /** No input credential has the id of a projected token (`ForeignIds` shows what happens else). */
  predicate OwnIds(inp: Input) {
    forall id :: id in inp.credentials ==> id.InputCred?
  }

  /** No two historical claims give one UID to different accounts (`TwoHistories` shows what happens
      else). */
  predicate OneHistory(inp: Input) {
    forall h, g :: h in inp.historical && g in inp.historical && h.uid == g.uid ==> h.account == g.account
  }

  /** What the parser guarantees and what it leaves to its callers. Namespaces and service-account
      names without colons are assumed throughout: UIDs and usernames are datatypes here. */
  ghost predicate WellFormed(inp: Input) {
    Plain(inp) && OwnIds(inp) && OneHistory(inp)
  }

  /** Enough for the engine to run as described. */
  ghost predicate Plain(inp: Input) { Parsed(inp) && NothingReserved(inp) }

  ghost predicate NoCreated(e: Env) {
    && (forall u :: u in e.pods ==> !Created(u) && (e.pods[u].owner.Some? ==> e.pods[u].owner.value in e.ctrls))
    && (forall c :: c in e.ctrls ==> !Created(c))
  }

  // ---------------------------------------------------------------- initial attacker state

  predicate Kept(f: InitialFact, view: Perspective, mode: Mode) {
    && !(view.EvidenceSupported? && f.status.Inferred?)
    && (mode.SnapshotOnly? ==> f.claim.ClaimCred? && f.status.Assumed?)
  }

  predicate KeptHistorical(h: Historical, view: Perspective, mode: Mode) {
    !(view.EvidenceSupported? && h.status.Inferred?) && !mode.SnapshotOnly?
  }

  function FactOf(c: Claim): Fact {
    match c
    case ClaimCred(id) => Possesses(id)
    case ClaimPod(u) => ControlsPod(u)
    case ClaimCtrl(u) => ControlsController(u)
    case ClaimKnown(k) => KnowsSecret(k)
  }

  const EVIDENCE := Derivation(Evidence, -2, [], [])

  function InitialFacts(inp: Input, view: Perspective, mode: Mode): set<Fact> {
    set f | f in inp.facts && Kept(f, view, mode) :: FactOf(f.claim)
  }

  /** The attacker's tables before anything is inferred. */
  function InitialState(inp: Input, view: Perspective, mode: Mode): State {
    var facts := InitialFacts(inp, view, mode);
    State(inp.env, map id | id in inp.credentials && Possesses(id) in facts :: inp.credentials[id],
          map f | f in facts :: EVIDENCE, map[])
  }

  // ---------------------------------------------------------------- possible history

  function KeptUids(hs: seq<Historical>, view: Perspective, mode: Mode): set<Uid> {
    set h | h in hs && KeptHistorical(h, view, mode) :: h.uid
  }

  function HistoricalPods(inp: Input, view: Perspective, mode: Mode): set<Uid> { KeptUids(inp.historical, view, mode) }

  /** The account of the first claim kept about a UID. */
  function FirstClaim(hs: seq<Historical>, view: Perspective, mode: Mode, u: Uid): Account {
    if hs == [] then Account("", "")
    else if hs[0].uid == u && KeptHistorical(hs[0], view, mode) then hs[0].account
    else FirstClaim(hs[1..], view, mode, u)
  }

  function RowsOf(hs: seq<Historical>, view: Perspective, mode: Mode): map<Uid, Account> {
    map u | u in KeptUids(hs, view, mode) :: FirstClaim(hs, view, mode, u)
  }

  /** The historical Pods as the engine takes them: of several claims about a UID, the first. */
  function FirstRows(inp: Input, view: Perspective, mode: Mode): map<Uid, Account> { RowsOf(inp.historical, view, mode) }

  /** Every claim about a historical Pod, whatever its status. */
  function AllRows(inp: Input): map<Uid, Account> { FirstRows(inp, ConservativePossible, Full) }

  function HistoricalFacts(inp: Input, view: Perspective, mode: Mode): set<Fact> {
    set u | u in HistoricalPods(inp, view, mode) :: ControlsPod(u)
  }

  predicate HistoryRuns(inp: Input, view: Perspective, mode: Mode) {
    && view.ConservativePossible?
    && var creds := InitialState(inp, view, mode).creds;
       || HistoricalPods(inp, view, mode) != {}
       || exists id :: id in creds && creds[id].expires.Some? && creds[id].expires.value <= inp.env.time
  }

  function HistoricalPod(u: Uid, a: Account): Pod { Pod(a.ns, Text(u), a.name, [], None) }

  function RowPods(rows: map<Uid, Account>): map<Uid, Pod> { map u | u in rows :: HistoricalPod(u, rows[u]) }

  /** The inventory with historical Pods under UIDs that are not in use. */
  function WithRows(e: Env, rows: map<Uid, Account>): Env { e.(pods := RowPods(rows) + e.pods) }

  function HistoryEnv(inp: Input, view: Perspective, mode: Mode): Env { WithRows(inp.env, FirstRows(inp, view, mode)) }

  function HistoryStart(inp: Input, view: Perspective, mode: Mode): State {
    var s := InitialState(inp, view, mode);
    State(HistoryEnv(inp, view, mode), s.creds,
          (map f | f in HistoricalFacts(inp, view, mode) :: EVIDENCE) + s.facts, map[])
  }

  function HistoryRule(inp: Input, mode: Mode): UseRule {
    if mode.WithoutLifecycle? then Blind else Window(inp.historyStart)
  }

  function MainRule(mode: Mode): UseRule { if mode.WithoutLifecycle? then Blind else Now }

  // ---------------------------------------------------------------- a complete engine run

  /** One saturation: from `before`, only ready firings, until none is ready. */
  ghost predicate Saturates(ctx: Ctx, before: State, after: State)
    requires ctx.st.api != []
  {
    Closed(ctx, after) && exists fs :: FireAll(ctx, before, fs) == Some(after)
  }

  /** Knowledge carries over from the history phase; its environment does not. */
  function MainStart(inp: Input, s: State): State { State(Reconcile(inp.env), s.creds, s.facts, map[]) }

  ghost predicate StartsMain(inp: Input, view: Perspective, mode: Mode, start: State)
    requires inp.st.api != []
  {
    if HistoryRuns(inp, view, mode) then
      exists h :: Saturates(Ctx(inp.st, HistoryRule(inp, mode), -1), HistoryStart(inp, view, mode), h) && start == MainStart(inp, h)
    else start == MainStart(inp, InitialState(inp, view, mode))
  }

  function NextState(s: State, a: Action): State { State(Reconcile(Defend(s.env, a)), s.creds, s.facts, map[]) }

  /** `stages[i]` is the fixpoint of interval `i`. */
  ghost predicate Ladder(inp: Input, rule: UseRule, start: State, stages: seq<State>)
    requires inp.st.api != []
  {
    && |stages| == |inp.actions| + 1
    && Saturates(Ctx(inp.st, rule, 0), start, stages[0])
    && forall i :: 0 <= i < |inp.actions| ==> Saturates(Ctx(inp.st, rule, i + 1), NextState(stages[i], inp.actions[i]), stages[i + 1])
  }

  /** A run of the engine in full or lifecycle-blind mode whose cap was not hit. */
  ghost predicate EngineRun(inp: Input, view: Perspective, mode: Mode, stages: seq<State>)
    requires inp.st.api != []
  {
    exists start :: StartsMain(inp, view, mode, start) && Ladder(inp, MainRule(mode), start, stages)
  }

  /** The attack-free environment of interval `k`. */
  function Base(inp: Input, k: nat): Env
    requires k <= |inp.actions|
  {
    if k == 0 then Reconcile(inp.env) else NextBase(Base(inp, k - 1), inp.actions[k - 1])
  }

  // ---------------------------------------------------------------- final-configuration baselines

  /** The final configuration, every action applied before the attacker moves. */
  function FinalEnv(e: Env, actions: seq<Action>): Env {
    if actions == [] then e else NextBase(FinalEnv(e, actions[..|actions| - 1]), actions[|actions| - 1])
  }

  /** A run of the final-state or snapshot baseline: one saturation of the final configuration. */
  ghost predicate BaselineRun(inp: Input, view: Perspective, mode: Mode, after: State)
    requires inp.st.api != []
  {
    exists start :: StartsMain(inp, view, mode, start) &&
      Saturates(Ctx(inp.st, Now, 0), start.(env := FinalEnv(inp.env, inp.actions)), after)
  }
}
