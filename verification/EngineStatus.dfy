/** What the engine's methods promise one another: the status of a closure in progress, what each
    block of rules has left undone, and what a finished view reports
    (packages/afterlock/engine.py). */
module EngineStatus {
  import opened Model
  import opened Semantics
  import opened Attack
  import opened Rules
  import opened Shape
  import opened Fixpoint
  import opened Case
  import opened Interleavings
  import opened Termination

  datatype Unknown =
    | UnsupportedCredential(cred: CredId)
    | UnsupportedAdmission(ns: string, creator: User, sa: string, resource: string)

  /** A closure in progress: where it started and what it has fired since. */
  datatype Log = Log(ctx: Ctx, start: State, fired: seq<Firing>)

  /** The engine's whole status at one moment. */
  datatype Progress = Progress(log: Log, base: Env, inHistory: bool, count: nat, unknowns: set<Unknown>, tables: State)

  function RuleNow(inp: Input, mode: Mode, inHistory: bool): UseRule {
    if mode.WithoutLifecycle? then Blind else if inHistory then Window(inp.historyStart) else Now
  }

  /** The tables are what the logged firings produce, and satisfy the engine's invariant. */
  ghost predicate Sound(inp: Input, mode: Mode, interval: int, m: Progress) {
    && Plain(inp) && m.log.ctx == Ctx(inp.st, RuleNow(inp, mode, m.inHistory), interval) && m.log.ctx.Valid()
    && FireAll(m.log.ctx, m.log.start, m.log.fired) == Some(m.tables)
    && Good(interval, m.tables) && EnvInv(m.base, m.tables.env)
  }

  /** One log entry per tick; without a change the tables stay as they were. */
  ghost predicate Stepped(a: Progress, b: Progress, changed: bool) {
    && b.log.ctx == a.log.ctx && b.log.start == a.log.start && b.base == a.base && b.inHistory == a.inHistory
    && a.log.fired <= b.log.fired && a.unknowns <= b.unknowns
    && b.count == a.count + |b.log.fired| - |a.log.fired|
    && (changed <==> |a.log.fired| < |b.log.fired|)
    && (!changed ==> b.tables == a.tables)
    && a.tables.facts.Keys <= b.tables.facts.Keys && a.tables.creds.Keys <= b.tables.creds.Keys
    && EnvGrew(a.tables.env, b.tables.env)
  }

  lemma NotStepped(a: Progress)
    ensures Stepped(a, a, false)
  {
  }

  lemma NotedOnly(a: Progress, b: Progress)
    requires a.unknowns <= b.unknowns && b == a.(unknowns := b.unknowns)
    ensures Stepped(a, b, false)
  {
  }

  lemma NotedSound(inp: Input, mode: Mode, interval: int, a: Progress, b: Progress)
    requires Sound(inp, mode, interval, a) && b == a.(unknowns := b.unknowns)
    ensures Sound(inp, mode, interval, b)
  {
    hide Good, EnvInv, Plain, FireAll;
  }

  lemma SteppedThen(a: Progress, b: Progress, c: Progress, ab: bool, bc: bool)
    requires Stepped(a, b, ab) && Stepped(b, c, bc)
    ensures Stepped(a, c, ab || bc)
  {
  }

  lemma SteppedKeeps(a: Progress, b: Progress, changed: bool)
    requires Stepped(a, b, changed)
    ensures b.log.ctx == a.log.ctx && b.log.start == a.log.start && b.inHistory == a.inHistory && a.unknowns <= b.unknowns
    ensures !changed ==> b.tables == a.tables
    ensures a.tables.facts.Keys <= b.tables.facts.Keys && a.tables.creds.Keys <= b.tables.creds.Keys
    ensures EnvGrew(a.tables.env, b.tables.env)
  {
  }

  lemma SoundCtx(inp: Input, mode: Mode, interval: int, m: Progress)
    requires Sound(inp, mode, interval, m)
    ensures m.log.ctx == Ctx(inp.st, RuleNow(inp, mode, m.inHistory), interval) && m.log.ctx.Valid() && inp.st.api != []
  {
  }

  lemma SoundCreds(inp: Input, mode: Mode, interval: int, m: Progress)
    requires Sound(inp, mode, interval, m)
    ensures forall id :: Possesses(id) in m.tables.facts <==> id in m.tables.creds
  {
    hide EnvInv, Shaped, FireAll, Plain;
  }

  // ---------------------------------------------------------------- nothing left to fire

  ghost predicate OwnDone(ctx: Ctx, s: State, c: Uid)
    requires ctx.Valid()
  {
    forall u :: !Ready(ctx, s, FireOwn(c, u))
  }

  lemma OwnOnlyLive(ctx: Ctx, s: State, c: Uid)
    requires ctx.Valid()
    ensures (forall u :: u in s.env.pods ==> !Ready(ctx, s, FireOwn(c, u))) ==> OwnDone(ctx, s, c)
  {
  }

  lemma OwnNeedsControl(ctx: Ctx, s: State, c: Uid)
    requires ctx.Valid() && ControlsController(c) !in s.facts
    ensures OwnDone(ctx, s, c)
  {
  }

  ghost predicate TokensDone(ctx: Ctx, s: State, u: Uid)
    requires ctx.Valid()
  {
    forall aud :: !Ready(ctx, s, FireToken(u, aud))
  }

  lemma TokensOnlyProjected(ctx: Ctx, s: State, u: Uid, auds: seq<string>)
    requires ctx.Valid()
    requires ControlsPod(u) in s.facts && u in s.env.pods && s.env.pods[u].Acct() in s.env.sas ==> auds == Audiences(ctx.st, s.env.pods[u])
    requires ControlsPod(u) in s.facts && u in s.env.pods && s.env.pods[u].Acct() in s.env.sas ==>
      forall i :: 0 <= i < |auds| ==> !Ready(ctx, s, FireToken(u, auds[i]))
    ensures TokensDone(ctx, s, u)
  {
  }

  ghost predicate PodsDone(ctx: Ctx, s: State, id: CredId, ns: string)
    requires ctx.Valid()
  {
    forall a: Account :: a.ns == ns ==> !Ready(ctx, s, FirePod(id, a))
  }

  ghost predicate CtrlsDone(ctx: Ctx, s: State, id: CredId, ns: string)
    requires ctx.Valid()
  {
    forall a: Account :: a.ns == ns ==> !Ready(ctx, s, FireCtrl(id, a))
  }

  ghost predicate PodsSettled(ctx: Ctx, s: State, id: CredId, ns: string, unknowns: set<Unknown>)
    requires ctx.Valid() && id in s.creds
  {
    forall a :: a in s.env.sas && a.ns == ns ==> PodSettled(ctx, s, id, a, unknowns)
  }

  ghost predicate CtrlsSettled(ctx: Ctx, s: State, id: CredId, ns: string, unknowns: set<Unknown>)
    requires ctx.Valid() && id in s.creds
  {
    forall a :: a in s.env.sas && a.ns == ns ==> CtrlSettled(ctx, s, id, a, unknowns)
  }

  lemma SettledIsNoted(ctx: Ctx, s: State, id: CredId, ns: string, unknowns: set<Unknown>)
    requires ctx.Valid() && id in s.creds
    requires PodsSettled(ctx, s, id, ns, unknowns) && CtrlsSettled(ctx, s, id, ns, unknowns)
    ensures CreatesNoted(ctx, s, id, ns, unknowns)
  {
    hide AskedPods, AskedCtrls;
  }

  lemma NotAuthorizedToCreate(ctx: Ctx, s: State, id: CredId, ns: string, unknowns: set<Unknown>)
    requires ctx.Valid() && id in s.creds
    ensures !Authorized(ctx.st, s.env.bindings, s.creds[id].user, "create", "pods", ns, None) ==> PodsSettled(ctx, s, id, ns, unknowns)
    ensures !Authorized(ctx.st, s.env.bindings, s.creds[id].user, "create", "deployments", ns, None) ==> CtrlsSettled(ctx, s, id, ns, unknowns)
  {
  }

  lemma SettledAllGrows(ctx: Ctx, s: State, id: CredId, ns: string, un: set<Unknown>, more: set<Unknown>)
    requires ctx.Valid() && id in s.creds && un <= more
    ensures PodsSettled(ctx, s, id, ns, un) ==> PodsSettled(ctx, s, id, ns, more)
  {
    hide PodSettled;
    PodSettledGrows(ctx, s, id, un, more);
  }

  ghost predicate ExecsDone(ctx: Ctx, s: State, id: CredId)
    requires ctx.Valid()
  {
    forall u :: !Ready(ctx, s, FireExec(id, u))
  }

  ghost predicate ReadsDone(ctx: Ctx, s: State, id: CredId)
    requires ctx.Valid()
  {
    forall k :: !Ready(ctx, s, FireLearn(id, k)) && !Ready(ctx, s, FireRead(id, k))
  }

  lemma OnlyLiveTargets(ctx: Ctx, s: State, id: CredId)
    requires ctx.Valid()
    ensures (forall u :: u in s.env.pods ==> !Ready(ctx, s, FireExec(id, u))) ==> ExecsDone(ctx, s, id)
    ensures (forall k :: k in s.env.secrets ==> !Ready(ctx, s, FireLearn(id, k)) && !Ready(ctx, s, FireRead(id, k))) ==> ReadsDone(ctx, s, id)
  {
  }

  /** No request authenticated with this credential can add anything. */
  ghost predicate RequestsDone(ctx: Ctx, s: State, id: CredId)
    requires ctx.Valid()
  {
    ExecsDone(ctx, s, id) && ReadsDone(ctx, s, id) && forall ns :: PodsDone(ctx, s, id, ns) && CtrlsDone(ctx, s, id, ns)
  }

  lemma NoActionNoRequests(ctx: Ctx, s: State, id: CredId)
    requires ctx.Valid() && !Acts(ctx, s, id)
    ensures RequestsDone(ctx, s, id)
  {
  }

  /** Creation is only ever possible in a namespace that has a service account. */
  lemma OtherNamespaces(ctx: Ctx, s: State, id: CredId, ns: string)
    requires ctx.Valid() && forall a :: a in s.env.sas ==> a.ns != ns
    ensures PodsDone(ctx, s, id, ns) && CtrlsDone(ctx, s, id, ns)
  {
  }

  ghost predicate AskedPods(ctx: Ctx, s: State, id: CredId, a: Account, unknowns: set<Unknown>)
    requires id in s.creds
  {
    Authorized(ctx.st, s.env.bindings, s.creds[id].user, "create", "pods", a.ns, None)
    && AdmissionDecision(ctx.st, s.creds[id].user, a.ns, a.name).Undecided? ==>
      ControlsLivePod(s, a) || UnsupportedAdmission(a.ns, s.creds[id].user, a.name, "pod") in unknowns
  }

  ghost predicate AskedCtrls(ctx: Ctx, s: State, id: CredId, a: Account, unknowns: set<Unknown>)
    requires id in s.creds
  {
    Authorized(ctx.st, s.env.bindings, s.creds[id].user, "create", "deployments", a.ns, None)
    && AdmissionDecision(ctx.st, s.creds[id].user, a.ns, a.name).Undecided? ==>
      ControlsLiveCtrl(s, a) || UnsupportedAdmission(a.ns, s.creds[id].user, a.name, "controller") in unknowns
  }

  /** All that a credential's requests leave behind at a fixpoint is on record. */
  ghost predicate RequestsNoted(ctx: Ctx, s: State, id: CredId, unknowns: set<Unknown>)
    requires id in s.creds
  {
    && (CredentialUsable(ctx.st, s.env, s.creds[id], 0).Unsupported? ==> UnsupportedCredential(id) in unknowns)
    && (Acts(ctx, s, id) ==> forall a :: a in s.env.sas ==> AskedPods(ctx, s, id, a, unknowns) && AskedCtrls(ctx, s, id, a, unknowns))
  }

  lemma NotedGrows(ctx: Ctx, s: State, id: CredId, un: set<Unknown>, more: set<Unknown>)
    requires id in s.creds && un <= more && RequestsNoted(ctx, s, id, un)
    ensures RequestsNoted(ctx, s, id, more)
  {
  }

  ghost predicate SourcesDone(ctx: Ctx, s: State, k: Known)
    requires ctx.Valid()
  {
    forall name :: !Ready(ctx, s, FireDownstream(k, name))
  }

  lemma SourcesOnly(ctx: Ctx, s: State, k: Known)
    requires ctx.Valid()
    ensures (forall name :: name in s.env.services ==> !Ready(ctx, s, FireDownstream(k, name))) ==> SourcesDone(ctx, s, k)
    ensures KnowsSecret(k) !in s.facts ==> SourcesDone(ctx, s, k)
  {
  }

  /** Nothing left to do about a workload of this account; an undecidable one is on record. */
  ghost predicate PodSettled(ctx: Ctx, s: State, id: CredId, a: Account, unknowns: set<Unknown>)
    requires ctx.Valid() && id in s.creds
  {
    !Ready(ctx, s, FirePod(id, a)) && AskedPods(ctx, s, id, a, unknowns)
  }

  ghost predicate CtrlSettled(ctx: Ctx, s: State, id: CredId, a: Account, unknowns: set<Unknown>)
    requires ctx.Valid() && id in s.creds
  {
    !Ready(ctx, s, FireCtrl(id, a)) && AskedCtrls(ctx, s, id, a, unknowns)
  }

  lemma PodSettledGrows(ctx: Ctx, s: State, id: CredId, un: set<Unknown>, more: set<Unknown>)
    requires ctx.Valid() && id in s.creds && un <= more
    ensures forall a :: PodSettled(ctx, s, id, a, un) ==> PodSettled(ctx, s, id, a, more)
  {
    hide Ready;
  }

  lemma CtrlSettledGrows(ctx: Ctx, s: State, id: CredId, un: set<Unknown>, more: set<Unknown>)
    requires ctx.Valid() && id in s.creds && un <= more
    ensures forall a :: CtrlSettled(ctx, s, id, a, un) ==> CtrlSettled(ctx, s, id, a, more)
  {
    hide Ready;
  }

  lemma ActsKept(ctx: Ctx, s: State, t: State, id: CredId)
    requires EnvGrew(s.env, t.env) && t.creds == s.creds && s.facts.Keys <= t.facts.Keys && Acts(ctx, s, id)
    ensures Acts(ctx, t, id)
  {
    assert Possesses(id) in s.facts.Keys;
  }

  // ---------------------------------------------------------------- what a view reports

  datatype IntervalRecord = IntervalRecord(index: nat, time: int, goals: set<Fact>)

  datatype Outcome = Outcome(
    goals: map<Fact, Derivation>, facts: map<Fact, Derivation>, creds: map<CredId, Cred>, intervals: seq<IntervalRecord>,
    unknowns: set<Unknown>, boundsExceeded: bool, finalEnv: Env, count: nat)

  ghost predicate RecordsOf(intervals: seq<IntervalRecord>, stages: seq<State>) {
    |intervals| == |stages| &&
    forall i :: 0 <= i < |stages| ==> intervals[i] == IntervalRecord(i, stages[i].env.time, stages[i].eph.Keys)
  }

  ghost predicate NotedThroughout(inp: Input, rule: UseRule, stages: seq<State>, unknowns: set<Unknown>) {
    forall i :: 0 <= i < |stages| ==> AllNoted(Ctx(inp.st, rule, i), stages[i], unknowns)
  }

  /** What a finished view reports about the fixpoints it went through. */
  ghost predicate Reports(inp: Input, mode: Mode, r: Outcome, stages: seq<State>) {
    && |stages| == |inp.actions| + 1
    && stages[|inp.actions|] == State(r.finalEnv, r.creds, r.facts, r.goals)
    && RecordsOf(r.intervals, stages) && NotedThroughout(inp, MainRule(mode), stages, r.unknowns)
  }

  /** What the history window left undecided is on record as well. */
  ghost predicate HistoryNoted(inp: Input, view: Perspective, mode: Mode, start: State, unknowns: set<Unknown>)
    requires inp.st.api != []
  {
    HistoryRuns(inp, view, mode) ==> exists h :: NotedHistory(inp, view, mode, h, unknowns) && start == MainStart(inp, h)
  }

  ghost predicate NotedHistory(inp: Input, view: Perspective, mode: Mode, h: State, unknowns: set<Unknown>)
    requires inp.st.api != []
  {
    var ctx := Ctx(inp.st, HistoryRule(inp, mode), -1);
    Saturates(ctx, HistoryStart(inp, view, mode), h) && AllNoted(ctx, h, unknowns)
  }

  /** A finished view in full or lifecycle-blind mode: a complete engine run, everything it met and
      could not decide on record, history included. */
  ghost predicate Finished(inp: Input, view: Perspective, mode: Mode, r: Outcome)
    requires inp.st.api != []
  {
    exists start, stages :: FinishedBy(inp, view, mode, r, start, stages)
  }

  ghost predicate FinishedBy(inp: Input, view: Perspective, mode: Mode, r: Outcome, start: State, stages: seq<State>)
    requires inp.st.api != []
  {
    && StartsMain(inp, view, mode, start) && Ladder(inp, MainRule(mode), start, stages)
    && Reports(inp, mode, r, stages) && HistoryNoted(inp, view, mode, start, r.unknowns)
  }

  lemma FinishedRun(inp: Input, view: Perspective, mode: Mode, r: Outcome) returns (stages: seq<State>)
    requires inp.st.api != [] && Finished(inp, view, mode, r)
    ensures EngineRun(inp, view, mode, stages) && Reports(inp, mode, r, stages)
  {
    hide StartsMain, Ladder, Reports, HistoryNoted;
    var start;
    start, stages :| FinishedBy(inp, view, mode, r, start, stages);
  }

  lemma NotedMore(ctx: Ctx, s: State, un: set<Unknown>, more: set<Unknown>)
    requires AllNoted(ctx, s, un) && un <= more
    ensures AllNoted(ctx, s, more)
  {
    hide RequestsNoted;
    forall id | id in s.creds
      ensures RequestsNoted(ctx, s, id, more)
    {
      NotedGrows(ctx, s, id, un, more);
    }
  }

  lemma HistoryNotedMore(inp: Input, view: Perspective, mode: Mode, start: State, un: set<Unknown>, more: set<Unknown>)
    requires inp.st.api != [] && HistoryNoted(inp, view, mode, start, un) && un <= more
    ensures HistoryNoted(inp, view, mode, start, more)
  {
    hide Saturates, AllNoted, HistoryStart;
    if HistoryRuns(inp, view, mode) {
      var h :| NotedHistory(inp, view, mode, h, un) && start == MainStart(inp, h);
      NotedMore(Ctx(inp.st, HistoryRule(inp, mode), -1), h, un, more);
      assert NotedHistory(inp, view, mode, h, more);
    }
  }

  // ---------------------------------------------------------------- initial tables

  function KeptFacts(fs: seq<InitialFact>, view: Perspective, mode: Mode): set<Fact> {
    set x | x in fs && Kept(x, view, mode) :: FactOf(x.claim)
  }

  function FactTable(fs: seq<InitialFact>, view: Perspective, mode: Mode): map<Fact, Derivation> {
    map f | f in KeptFacts(fs, view, mode) :: EVIDENCE
  }

  function CredTable(inp: Input, facts: set<Fact>): map<CredId, Cred> {
    map id | id in inp.credentials && Possesses(id) in facts :: inp.credentials[id]
  }

  lemma OneMoreFact(inp: Input, fs: seq<InitialFact>, f: InitialFact, view: Perspective, mode: Mode)
    requires f.claim.ClaimCred? ==> f.claim.cred in inp.credentials
    ensures FactTable(fs + [f], view, mode) ==
      if Kept(f, view, mode) then FactTable(fs, view, mode)[FactOf(f.claim) := EVIDENCE] else FactTable(fs, view, mode)
    ensures CredTable(inp, FactTable(fs + [f], view, mode).Keys) ==
      if Kept(f, view, mode) && f.claim.ClaimCred?
      then CredTable(inp, FactTable(fs, view, mode).Keys)[f.claim.cred := inp.credentials[f.claim.cred]]
      else CredTable(inp, FactTable(fs, view, mode).Keys)
  {
    hide Kept;
    var before, after := FactTable(fs, view, mode), FactTable(fs + [f], view, mode);
    assert forall x :: x in after <==> x in before || (Kept(f, view, mode) && x == FactOf(f.claim));
  }

  lemma AllFacts(inp: Input, view: Perspective, mode: Mode)
    ensures FactTable(inp.facts, view, mode) == InitialState(inp, view, mode).facts
    ensures CredTable(inp, FactTable(inp.facts, view, mode).Keys) == InitialState(inp, view, mode).creds
  {
    hide Kept;
    assert FactTable(inp.facts, view, mode).Keys == InitialFacts(inp, view, mode);
  }

  function Controls(pods: set<Uid>): set<Fact> { set u | u in pods :: ControlsPod(u) }

  function RecalledFacts(done: set<Uid>): map<Fact, Derivation> {
    map f | f in Controls(done) :: EVIDENCE
  }

  /** Of several claims about a UID, the first counts. */
  lemma {:induction false} OneMoreClaim(hs: seq<Historical>, h: Historical, view: Perspective, mode: Mode, u: Uid)
    ensures FirstClaim(hs + [h], view, mode, u) ==
      if u in KeptUids(hs, view, mode) then FirstClaim(hs, view, mode, u)
      else if KeptHistorical(h, view, mode) && h.uid == u then h.account else Account("", "")
  {
    if hs == [] {
      assert hs + [h] == [h];
    } else {
      assert (hs + [h])[1..] == hs[1..] + [h];
      OneMoreClaim(hs[1..], h, view, mode, u);
      assert hs[0] in hs && forall x :: x in hs <==> x == hs[0] || x in hs[1..];
    }
  }

  lemma OneMoreUid(hs: seq<Historical>, h: Historical, view: Perspective, mode: Mode)
    ensures KeptUids(hs + [h], view, mode) == KeptUids(hs, view, mode) + if KeptHistorical(h, view, mode) then {h.uid} else {}
  {
    hide KeptHistorical;
  }

  lemma RowsGrow(hs: seq<Historical>, h: Historical, view: Perspective, mode: Mode)
    ensures RowsOf(hs + [h], view, mode) ==
      var before := RowsOf(hs, view, mode);
      if !KeptHistorical(h, view, mode) || h.uid in before then before else before[h.uid := h.account]
  {
    hide KeptHistorical, KeptUids;
    OneMoreUid(hs, h, view, mode);
    var a, b := RowsOf(hs, view, mode), RowsOf(hs + [h], view, mode);
    forall u | u in b
      ensures b[u] == if u in a then a[u] else h.account
    {
      OneMoreClaim(hs, h, view, mode, u);
    }
  }

  lemma PutUnder(m: map<Uid, Pod>, over: map<Uid, Pod>, u: Uid, p: Pod)
    requires u !in m
    ensures m[u := p] + over == if u in over then m + over else (m + over)[u := p]
  {
  }

  lemma WithOneRow(e: Env, rows: map<Uid, Account>, u: Uid, a: Account)
    requires u !in rows
    ensures WithRows(e, rows[u := a]) ==
      var before := WithRows(e, rows);
      if u in before.pods then before else before.(pods := before.pods[u := HistoricalPod(u, a)])
  {
    assert RowPods(rows[u := a]) == RowPods(rows)[u := HistoricalPod(u, a)];
    PutUnder(RowPods(rows), e.pods, u, HistoricalPod(u, a));
  }

  lemma OneMoreRow(e: Env, hs: seq<Historical>, h: Historical, view: Perspective, mode: Mode)
    ensures KeptUids(hs + [h], view, mode) == KeptUids(hs, view, mode) + if KeptHistorical(h, view, mode) then {h.uid} else {}
    ensures WithRows(e, RowsOf(hs + [h], view, mode)) ==
      var before := WithRows(e, RowsOf(hs, view, mode));
      if !KeptHistorical(h, view, mode) || h.uid in before.pods then before
      else before.(pods := before.pods[h.uid := HistoricalPod(h.uid, h.account)])
  {
    hide KeptHistorical, KeptUids, RowsOf, HistoricalPod;
    OneMoreUid(hs, h, view, mode);
    RowsGrow(hs, h, view, mode);
    var rows := RowsOf(hs, view, mode);
    if h.uid !in rows { WithOneRow(e, rows, h.uid, h.account); }
  }

  lemma RecalledAll(inp: Input, view: Perspective, mode: Mode)
    ensures HistoryStart(inp, view, mode).facts == RecalledFacts(HistoricalPods(inp, view, mode)) + InitialState(inp, view, mode).facts
  {
    hide InitialState, HistoryEnv, HistoricalPods;
    assert Controls(HistoricalPods(inp, view, mode)) == HistoricalFacts(inp, view, mode);
  }

  lemma NothingRecalled()
    ensures RecalledFacts({}) == map[]
  {
  }

  lemma OneMoreControl(done: set<Uid>, u: Uid, f0: map<Fact, Derivation>)
    ensures RecalledFacts(done + {u}) + f0 ==
      if ControlsPod(u) in RecalledFacts(done) + f0 then RecalledFacts(done) + f0
      else (RecalledFacts(done) + f0)[ControlsPod(u) := EVIDENCE]
  {
    assert Controls(done + {u}) == Controls(done) + {ControlsPod(u)};
  }

  lemma NoRows(e: Env, view: Perspective, mode: Mode)
    ensures KeptUids([], view, mode) == {} && WithRows(e, RowsOf([], view, mode)) == e
  {
    assert WithRows(e, RowsOf([], view, mode)).pods == e.pods;
  }

  lemma HistoryShape(inp: Input, view: Perspective, mode: Mode)
    ensures HistoryStart(inp, view, mode).env == HistoryEnv(inp, view, mode) && HistoryStart(inp, view, mode).eph == map[]
    ensures HistoryStart(inp, view, mode).creds == InitialState(inp, view, mode).creds
  {
  }

  // ---------------------------------------------------------------- climbing the intervals

  /** The first intervals of a complete run. */
  ghost predicate Climb(inp: Input, rule: UseRule, start: State, stages: seq<State>)
    requires inp.st.api != []
  {
    && 1 <= |stages| <= |inp.actions| + 1
    && Saturates(Ctx(inp.st, rule, 0), start, stages[0])
    && forall i :: 0 <= i < |stages| - 1 ==> Saturates(Ctx(inp.st, rule, i + 1), NextState(stages[i], inp.actions[i]), stages[i + 1])
  }

  lemma FirstRung(inp: Input, rule: UseRule, start: State, s: State)
    requires Plain(inp) && Saturates(Ctx(inp.st, rule, 0), start, s)
    requires Good(0, start) && start.env == Reconcile(inp.env)
    ensures StageGood(inp, s, 0)
  {
    hide Good, EnvInv, Reconcile, Saturates;
    MainEnvGood(inp);
    SaturationGood(Ctx(inp.st, rule, 0), Base(inp, 0), start, s);
  }

  lemma NextRungGood(inp: Input, s: State, k: nat)
    requires Plain(inp) && k < |inp.actions| && StageGood(inp, s, k)
    ensures Good(k + 1, NextState(s, inp.actions[k])) && EnvInv(Base(inp, k + 1), NextState(s, inp.actions[k]).env)
    ensures Reconciled(Base(inp, k + 1))
  {
    hide Good, EnvInv, Reconcile, Defend, Reconciled;
    NextGood(Base(inp, k), k, s, inp.actions[k]);
  }

  lemma NextRung(inp: Input, rule: UseRule, start: State, stages: seq<State>, s: State)
    requires Plain(inp) && Climb(inp, rule, start, stages) && |stages| <= |inp.actions|
    requires StageGood(inp, stages[|stages| - 1], |stages| - 1)
    requires Saturates(Ctx(inp.st, rule, |stages|), NextState(stages[|stages| - 1], inp.actions[|stages| - 1]), s)
    ensures Climb(inp, rule, start, stages + [s]) && StageGood(inp, s, |stages|)
  {
    hide Good, EnvInv, Reconcile, Defend, Reconciled, Saturates;
    var k := |stages| - 1;
    NextRungGood(inp, stages[k], k);
    SaturationGood(Ctx(inp.st, rule, k + 1), Base(inp, k + 1), NextState(stages[k], inp.actions[k]), s);
  }

  lemma NotedLonger(inp: Input, rule: UseRule, stages: seq<State>, un: set<Unknown>, more: set<Unknown>)
    requires NotedThroughout(inp, rule, stages, un) && un <= more
    ensures NotedThroughout(inp, rule, stages, more)
  {
    hide AllNoted;
    forall i | 0 <= i < |stages|
      ensures AllNoted(Ctx(inp.st, rule, i), stages[i], more)
    {
      NotedMore(Ctx(inp.st, rule, i), stages[i], un, more);
    }
  }

  lemma {:induction false} FinalEnvInv(inp: Input, k: nat)
    requires Plain(inp) && k <= |inp.actions|
    ensures var e := FinalEnv(inp.env, inp.actions[..k]);
      NoCreated(e) && EnvInv(e, e) && OnlyModels(e)
  {
    hide EnvInv;
    if k == 0 {
      NativeEnvInv(inp.env);
    } else {
      FinalEnvInv(inp, k - 1);
      assert inp.actions[..k][..k - 1] == inp.actions[..k - 1];
      NextFinalEnv(inp, FinalEnv(inp.env, inp.actions[..k - 1]), inp.actions[k - 1]);
    }
  }

  lemma NextFinalEnv(inp: Input, e: Env, a: Action)
    requires Plain(inp) && NativeAction(a) && NoCreated(e) && EnvInv(e, e)
    ensures var f := NextBase(e, a); NoCreated(f) && EnvInv(f, f) && OnlyModels(f)
  {
    hide Reconcile, EnvInv;
    DefendShrinks(e, a);
    EnvInvShaped(e);
    NativeNext(e, a);
    SelfNative(NextBase(e, a));
  }

  lemma EnvInvShaped(e: Env)
    requires EnvInv(e, e)
    ensures Shaped(e) && Native(e) == NativeAt(e, e)
  {
  }

  lemma NativeNext(e: Env, a: Action)
    requires NoCreated(e) && Shaped(e)
    ensures NoCreated(NextBase(e, a)) && (forall c :: c in NextBase(e, a).counters ==> c in e.counters || !Created(c))
  {
    hide Reconcile;
    var d := Defend(e, a);
    DefendShrinks(e, a);
    ReconcileKeepsPods(d);
    ReconcileOnlyPods(d);
    NativeOwners(e, a);
    NativeCounters(d);
  }

  lemma NativeOwners(e: Env, a: Action)
    requires NoCreated(e)
    ensures forall u :: u in Defend(e, a).pods && Defend(e, a).pods[u].owner.Some? ==> Defend(e, a).pods[u].owner.value in Defend(e, a).ctrls
    ensures Defend(e, a).counters == e.counters
  {
  }

  lemma NativeCounters(d: Env)
    requires forall c :: c in d.ctrls ==> !Created(c)
    ensures forall c :: c in Reconcile(d).counters ==> c in d.counters || !Created(c)
  {
  }

  lemma SelfNative(e: Env)
    requires NoCreated(e) && forall c :: c in e.counters ==> !Created(c)
    ensures EnvInv(e, e) && OnlyModels(e)
  {
    assert Native(e).pods == e.pods && Native(e).ctrls == e.ctrls && Native(e).counters == e.counters;
  }

  lemma FinalEnvGood(inp: Input, start: State)
    requires Plain(inp) && Good(0, start) && start.env == Reconcile(inp.env)
    ensures Good(0, start.(env := FinalEnv(inp.env, inp.actions)))
    ensures EnvInv(FinalEnv(inp.env, inp.actions), FinalEnv(inp.env, inp.actions))
  {
    hide FinalEnv, Reconcile;
    assert inp.actions[..|inp.actions|] == inp.actions;
    FinalEnvInv(inp, |inp.actions|);
    MainEnvGood(inp);
    SameCtrls(inp);
    NoModelFacts(start, FinalEnv(inp.env, inp.actions));
    assert CredsKnown(start.(env := FinalEnv(inp.env, inp.actions)));
  }

  lemma NoModelFacts(s: State, e: Env)
    requires ModelsKnown(0, s) && NoCreated(e)
    requires (forall u :: u in s.env.pods ==> !Created(u)) && (forall c :: c in s.env.ctrls ==> !Created(c))
    ensures ModelsKnown(0, s.(env := e))
  {
  }

  /** What no fixpoint resolves is on record, for every credential held. */
  ghost predicate AllNoted(ctx: Ctx, s: State, unknowns: set<Unknown>) {
    forall id :: id in s.creds ==> RequestsNoted(ctx, s, id, unknowns)
  }

  lemma BlocksClosed(ctx: Ctx, s: State)
    requires ctx.Valid()
    requires (forall c :: OwnDone(ctx, s, c)) && (forall u :: TokensDone(ctx, s, u)) && (forall id :: RequestsDone(ctx, s, id))
    requires (forall k :: SourcesDone(ctx, s, k)) && (forall n, v :: !Ready(ctx, s, FireUse(n, v)))
    ensures Closed(ctx, s)
  {
    hide Ready;
    forall f
      ensures !Ready(ctx, s, f)
    {
      match f {
        case FireOwn(c, _) => assert OwnDone(ctx, s, c);
        case FireToken(u, _) => assert TokensDone(ctx, s, u);
        case FireDownstream(k, _) => assert SourcesDone(ctx, s, k);
        case FireUse(_, _) =>
        case FirePod(id, a) => assert RequestsDone(ctx, s, id) && PodsDone(ctx, s, id, a.ns);
        case FireCtrl(id, a) => assert RequestsDone(ctx, s, id) && CtrlsDone(ctx, s, id, a.ns);
        case _ => assert RequestsDone(ctx, s, f.cred);
      }
    }
  }

  lemma SteppedBelow(inp: Input, mode: Mode, interval: int, a: Progress, b: Progress)
    requires Sound(inp, mode, interval, a) && Sound(inp, mode, interval, b) && Stepped(a, b, true)
    ensures Below(DistanceOf(a.log.ctx, b.tables), DistanceOf(a.log.ctx, a.tables))
  {
    hide Good, EnvInv, Plain, Below, DistanceOf, FireAll, EnvGrew;
    var gs := b.log.fired[|a.log.fired|..];
    assert b.log.fired == a.log.fired + gs;
    FiringsBelow(a.log.ctx, a.log.start, a.log.fired, gs);
  }

  lemma NoCredentialNoUse(ctx: Ctx, s: State, n: string, v: int)
    requires ctx.Valid() && PossessesDownstream(n, v) !in s.facts
    ensures !Ready(ctx, s, FireUse(n, v))
  {
  }

  lemma AcceptedAnyInterval(st: Static, rule: UseRule, i: int, j: int)
    ensures forall e, c :: Accepted(Ctx(st, rule, i), e, c) <==> Accepted(Ctx(st, rule, j), e, c)
  {
  }

  /** A credential that cannot act leaves nothing to do; an unsupported one is on record. */
  lemma InactiveDone(ctx: Ctx, s: State, id: CredId, unknowns: set<Unknown>)
    requires ctx.Valid() && id in s.creds && !Acts(ctx, s, id)
    requires CredentialUsable(ctx.st, s.env, s.creds[id], 0).Unsupported? ==> UnsupportedCredential(id) in unknowns
    ensures RequestsDone(ctx, s, id) && RequestsNoted(ctx, s, id, unknowns)
  {
    hide Accepted, CredentialUsable;
    NoActionNoRequests(ctx, s, id);
  }

  lemma ActiveDone(ctx: Ctx, s: State, id: CredId, noted: set<Unknown>, unknowns: set<Unknown>)
    requires ctx.Valid() && id in s.creds && noted <= unknowns
    requires CredentialUsable(ctx.st, s.env, s.creds[id], 0).Unsupported? ==> UnsupportedCredential(id) in noted
    requires forall ns :: CreatesNoted(ctx, s, id, ns, noted)
    requires ExecsDone(ctx, s, id) && ReadsDone(ctx, s, id)
    ensures RequestsDone(ctx, s, id) && RequestsNoted(ctx, s, id, unknowns)
  {
    hide CreatesNoted, ExecsDone, ReadsDone, CredentialUsable, PodsDone, CtrlsDone, AskedPods, AskedCtrls, Acts;
    CreatesNotedGrow(ctx, s, id, noted, unknowns);
    AllCreatesNoted(ctx, s, id, unknowns);
  }

  /** Nothing left to create in a namespace, and what could not be decided is on record. */
  ghost predicate CreatesNoted(ctx: Ctx, s: State, id: CredId, ns: string, unknowns: set<Unknown>)
    requires ctx.Valid() && id in s.creds
  {
    && PodsDone(ctx, s, id, ns) && CtrlsDone(ctx, s, id, ns)
    && forall a :: a in s.env.sas && a.ns == ns ==> AskedPods(ctx, s, id, a, unknowns) && AskedCtrls(ctx, s, id, a, unknowns)
  }

  lemma SameReadConditions(ctx: Ctx, s: State, t: State, id: CredId, k: SecretKey)
    requires id in s.creds && k in s.env.secrets && t.env == s.env && t.creds == s.creds
    ensures ReadConditions(ctx, s, id, k) == ReadConditions(ctx, t, id, k)
  {
  }

  lemma CreatesNotedGrow(ctx: Ctx, s: State, id: CredId, un: set<Unknown>, more: set<Unknown>)
    requires ctx.Valid() && id in s.creds && un <= more
    ensures forall ns :: CreatesNoted(ctx, s, id, ns, un) ==> CreatesNoted(ctx, s, id, ns, more)
  {
    hide Ready, PodsDone, CtrlsDone, ControlsLivePod, ControlsLiveCtrl, Authorized, AdmissionDecision;
  }

  lemma NoAccountNothingToCreate(ctx: Ctx, s: State, id: CredId, ns: string, unknowns: set<Unknown>)
    requires ctx.Valid() && id in s.creds && forall a :: a in s.env.sas ==> a.ns != ns
    ensures CreatesNoted(ctx, s, id, ns, unknowns)
  {
    OtherNamespaces(ctx, s, id, ns);
  }

  lemma AllCreatesNoted(ctx: Ctx, s: State, id: CredId, unknowns: set<Unknown>)
    requires ctx.Valid() && id in s.creds && forall ns :: CreatesNoted(ctx, s, id, ns, unknowns)
    ensures forall ns :: PodsDone(ctx, s, id, ns) && CtrlsDone(ctx, s, id, ns)
    ensures forall a :: a in s.env.sas ==> AskedPods(ctx, s, id, a, unknowns) && AskedCtrls(ctx, s, id, a, unknowns)
  {
    hide PodsDone, CtrlsDone, AskedPods, AskedCtrls;
    forall a | a in s.env.sas
      ensures AskedPods(ctx, s, id, a, unknowns) && AskedCtrls(ctx, s, id, a, unknowns)
    {
      assert CreatesNoted(ctx, s, id, a.ns, unknowns);
    }
    forall ns
      ensures PodsDone(ctx, s, id, ns) && CtrlsDone(ctx, s, id, ns)
    {
      assert CreatesNoted(ctx, s, id, ns, unknowns);
    }
  }
}
