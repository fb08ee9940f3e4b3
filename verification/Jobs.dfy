/** Leased jobs and their results (services/api/afterlock_api/storage.py, `MemoryStorage`): the
    state each operation leads to, and what holds over every interleaving of operations. Clock
    readings and new identifiers are parameters. */
module Jobs {
  import opened Model

  datatype Kind = Analysis | PlanKind | Verification

  datatype CaseKey = CaseKey(cluster: string, caseId: string)

  /** A digest stands for exactly the contents it was taken of. */
  datatype Digest = Digest(key: CaseKey, kind: Kind, payload: string)

  datatype Manifest = Manifest(id: string, key: CaseKey, kind: Kind, payload: string, inputHash: Digest)
  {
    predicate Intact() { Digest(key, kind, payload) == inputHash }
  }

  datatype JobState = Queued | Leased | Running | Succeeded | Failed | Cancelled

  datatype Job = Job(
    cluster: string, manifest: string, kind: Kind, state: JobState, owner: Option<string>, expires: Option<int>,
    attempts: nat, maxAttempts: nat, cancelRequested: bool, lastError: Option<string>)
  {
    predicate Active() { state.Leased? || state.Running? }
    predicate Terminal() { state.Succeeded? || state.Failed? || state.Cancelled? }
  }

  datatype Record = Record(key: CaseKey, manifest: string, job: Option<string>, kind: Kind, output: string)

  datatype Lease = Lease(job: string, cluster: string, owner: string, kind: Kind, attempt: nat, manifest: Manifest)

  datatype Scope = Everything | Clusters(names: set<string>)
  {
    predicate Sees(cluster: string) { Everything? || cluster in names }
  }

  datatype Caps = Caps(cases: nat, results: nat, jobs: nat)

  /** `order` lists job ids in creation order, the order in which claims look at them. */
  datatype Store = Store(
    caps: Caps, cases: set<CaseKey>, manifests: map<string, Manifest>, jobs: map<string, Job>, order: seq<string>,
    results: map<string, Record>, resultByJob: map<string, string>)

  // ---------------------------------------------------------------- operations

  datatype Op =
    | CreateCase(key: CaseKey)
    | RecordAnalysis(manifest: Manifest, output: string, rid: string)
    | Enqueue(manifest: Manifest, maxAttempts: int, jid: string)
    | Claim(owner: string, seconds: int, scope: Scope, now: int)
    | Heartbeat(lease: Lease, seconds: int, now: int, later: int)
    | MarkRunning(lease: Lease, seconds: int, now: int, later: int)
    | Complete(lease: Lease, output: string, rid: string, now: int)
    | Fail(lease: Lease, error: string, retryable: bool, now: int)
    | CancelJob(job: string, scope: Scope)
    | AcknowledgeCancel(lease: Lease, now: int)

  datatype HeartbeatStatus = Ok | Cancel | Lost

  function PutManifest(s: Store, m: Manifest): Store {
    if m.id in s.manifests then s else s.(manifests := s.manifests[m.id := m])
  }

  predicate MayEnqueue(s: Store, m: Manifest, maxAttempts: int) {
    1 <= maxAttempts <= 10 && |s.jobs| < s.caps.jobs && m.key in s.cases
  }

  function NewJob(m: Manifest, maxAttempts: nat): Job {
    Job(m.key.cluster, m.id, m.kind, Queued, None, None, 0, maxAttempts, false, None)
  }

  function EnqueueIn(s: Store, m: Manifest, maxAttempts: int, jid: string): Store {
    if MayEnqueue(s, m, maxAttempts) then
      PutManifest(s, m).(jobs := s.jobs[jid := NewJob(m, maxAttempts)], order := s.order + [jid])
    else s
  }

  function RecordIn(s: Store, m: Manifest, output: string, rid: string): Store {
    if |s.results| < s.caps.results && m.key in s.cases then
      PutManifest(s, m).(results := s.results[rid := Record(m.key, m.id, None, m.kind, output)])
    else s
  }

  function Released(j: Job, state: JobState, error: Option<string>): Job {
    j.(state := state, owner := None, expires := None, lastError := if error.Some? then error else j.lastError)
  }

  predicate Expired(j: Job, now: int) { j.Active() && j.expires.Some? && j.expires.value <= now }

  function LeasedTo(j: Job, owner: string, now: int, seconds: int): Job {
    j.(state := Leased, owner := Some(owner), expires := Some(now + seconds), attempts := j.attempts + 1,
       lastError := if Expired(j, now) then Some("lease held by " + (if j.owner.Some? then j.owner.value else "") + " expired; re-queued") else j.lastError)
  }

  /** What a claim does with one job it can see. */
  datatype Turn = Skip | Drop(job: Job) | Take(job: Job)

  function TurnOf(j: Job, owner: string, seconds: int, scope: Scope, now: int): Turn {
    if !scope.Sees(j.cluster) || !(j.state.Queued? || Expired(j, now)) then Skip
    else if j.cancelRequested then Drop(Released(j, Cancelled, None))
    else if j.attempts >= j.maxAttempts then Drop(Released(j, Failed, Some("lease expired and retry budget exhausted")))
    else Take(LeasedTo(j, owner, now, seconds))
  }

  function LeaseFor(s: Store, id: string, j: Job, owner: string): Lease
    requires j.manifest in s.manifests
  {
    Lease(id, j.cluster, owner, j.kind, j.attempts, s.manifests[j.manifest])
  }

  predicate Linked(s: Store) {
    && (forall i :: 0 <= i < |s.order| ==> s.order[i] in s.jobs)
    && (forall id :: id in s.jobs ==> s.jobs[id].manifest in s.manifests)
  }

  /** A claim from position `i` on: overdue or cancelled jobs are settled on the way, and the
      first claimable one is leased. */
  function ClaimFrom(s: Store, i: nat, owner: string, seconds: int, scope: Scope, now: int): (Store, Option<Lease>)
    requires Linked(s) && i <= |s.order|
    decreases |s.order| - i
  {
    if i == |s.order| then (s, None)
    else
      var id := s.order[i];
      match TurnOf(s.jobs[id], owner, seconds, scope, now)
      case Skip => ClaimFrom(s, i + 1, owner, seconds, scope, now)
      case Drop(j) => ClaimFrom(s.(jobs := s.jobs[id := j]), i + 1, owner, seconds, scope, now)
      case Take(j) => (s.(jobs := s.jobs[id := j]), Some(LeaseFor(s, id, j, owner)))
  }

  /** The lease is the current attempt of an active job, and unexpired. */
  predicate Held(s: Store, l: Lease, now: int) {
    && l.job in s.jobs
    && var j := s.jobs[l.job];
       j.cluster == l.cluster && j.Active() && j.owner == Some(l.owner) && j.attempts == l.attempt && j.expires.Some? && j.expires.value > now
  }

  function Put(s: Store, id: string, j: Job): Store { s.(jobs := s.jobs[id := j]) }

  function StatusOf(s: Store, l: Lease, now: int): HeartbeatStatus {
    if !Held(s, l, now) then Lost else if s.jobs[l.job].cancelRequested then Cancel else Ok
  }

  function HeartbeatIn(s: Store, l: Lease, seconds: int, now: int, later: int): Store {
    if Held(s, l, now) then Put(s, l.job, s.jobs[l.job].(expires := Some(later + seconds))) else s
  }

  function MarkRunningIn(s: Store, l: Lease, seconds: int, now: int, later: int): Store {
    if Held(s, l, now) then Put(s, l.job, s.jobs[l.job].(expires := Some(later + seconds), state := Running)) else s
  }

  predicate MayPublish(s: Store, l: Lease, now: int) {
    && Held(s, l, now) && !s.jobs[l.job].cancelRequested && l.job !in s.resultByJob
    && s.jobs[l.job].manifest in s.manifests && s.manifests[s.jobs[l.job].manifest].key in s.cases
  }

  predicate Publishes(s: Store, l: Lease, now: int) { MayPublish(s, l, now) && |s.results| < s.caps.results }

  function CompleteIn(s: Store, l: Lease, output: string, rid: string, now: int): Store {
    if !MayPublish(s, l, now) then s
    else
      var j := s.jobs[l.job];
      if |s.results| >= s.caps.results then Put(s, l.job, Released(j, Failed, Some("in-memory result limit reached")))
      else
        var m := s.manifests[j.manifest];
        s.(results := s.results[rid := Record(CaseKey(j.cluster, m.key.caseId), m.id, Some(l.job), j.kind, output)],
           resultByJob := s.resultByJob[l.job := rid], jobs := s.jobs[l.job := Released(j, Succeeded, None)])
  }

  function FailState(j: Job, retryable: bool): JobState {
    if j.cancelRequested then Cancelled else if retryable && j.attempts < j.maxAttempts then Queued else Failed
  }

  function FailIn(s: Store, l: Lease, error: string, retryable: bool, now: int): Store {
    if Held(s, l, now) then Put(s, l.job, Released(s.jobs[l.job], FailState(s.jobs[l.job], retryable), Some(error))) else s
  }

  function CancelIn(s: Store, id: string, scope: Scope): Store {
    if id !in s.jobs || !scope.Sees(s.jobs[id].cluster) then s
    else
      var j := s.jobs[id];
      if j.state.Queued? then Put(s, id, j.(state := Cancelled, cancelRequested := true))
      else if j.Active() then Put(s, id, j.(cancelRequested := true))
      else s
  }

  predicate MayAcknowledge(s: Store, l: Lease, now: int) { Held(s, l, now) && s.jobs[l.job].cancelRequested }

  function AcknowledgeIn(s: Store, l: Lease, now: int): Store {
    if MayAcknowledge(s, l, now) then Put(s, l.job, Released(s.jobs[l.job], Cancelled, None)) else s
  }

  /** New identifiers are really new. */
  predicate FreshIds(s: Store, op: Op) {
    && (op.Enqueue? ==> op.jid !in s.jobs)
    && (op.RecordAnalysis? ==> op.rid !in s.results)
    && (op.Complete? ==> op.rid !in s.results)
  }

  /** Manifest ids are content addressed: one id, one manifest. */
  predicate SameManifest(s: Store, op: Op) {
    && (op.Enqueue? && op.manifest.id in s.manifests ==> s.manifests[op.manifest.id] == op.manifest)
    && (op.RecordAnalysis? && op.manifest.id in s.manifests ==> s.manifests[op.manifest.id] == op.manifest)
  }

  function After(s: Store, op: Op): Store
    requires Linked(s)
  {
    match op
    case CreateCase(key) => if |s.cases| < s.caps.cases then s.(cases := s.cases + {key}) else s
    case RecordAnalysis(m, output, rid) => RecordIn(s, m, output, rid)
    case Enqueue(m, n, jid) => EnqueueIn(s, m, n, jid)
    case Claim(owner, seconds, scope, now) => ClaimFrom(s, 0, owner, seconds, scope, now).0
    case Heartbeat(l, seconds, now, later) => HeartbeatIn(s, l, seconds, now, later)
    case MarkRunning(l, seconds, now, later) => MarkRunningIn(s, l, seconds, now, later)
    case Complete(l, output, rid, now) => CompleteIn(s, l, output, rid, now)
    case Fail(l, error, retryable, now) => FailIn(s, l, error, retryable, now)
    case CancelJob(id, scope) => CancelIn(s, id, scope)
    case AcknowledgeCancel(l, now) => AcknowledgeIn(s, l, now)
  }

  /** The lease an operation issues, if any. */
  function Issues(s: Store, op: Op): Option<Lease>
    requires Linked(s)
  {
    if op.Claim? then ClaimFrom(s, 0, op.owner, op.seconds, op.scope, op.now).1 else None
  }

  // ---------------------------------------------------------------- the invariant

  predicate JobSound(j: Job) {
    && 1 <= j.maxAttempts <= 10 && j.attempts <= j.maxAttempts
    && (j.state.Queued? ==> !j.cancelRequested && j.attempts < j.maxAttempts)
    && (j.Active() <==> j.owner.Some?) && (j.owner.Some? <==> j.expires.Some?) && (j.Active() ==> j.attempts >= 1)
    && (j.Terminal() ==> (j.state.Cancelled? <==> j.cancelRequested))
  }

  ghost predicate JobsSound(s: Store) {
    forall id :: id in s.jobs ==>
      && JobSound(s.jobs[id])
      && (s.jobs[id].state.Succeeded? <==> id in s.resultByJob)
      && s.jobs[id].manifest in s.manifests
      && var m := s.manifests[s.jobs[id].manifest];
         m.key in s.cases && m.key.cluster == s.jobs[id].cluster && m.kind == s.jobs[id].kind
  }

  /** Each published result is its job's only one, and its manifest and case exist. */
  ghost predicate ResultsSound(s: Store) {
    && (forall id :: id in s.resultByJob ==> id in s.jobs && s.resultByJob[id] in s.results && s.results[s.resultByJob[id]].job == Some(id))
    && (forall r :: r in s.results && s.results[r].job.Some? ==>
          && s.results[r].job.value in s.resultByJob && s.resultByJob[s.results[r].job.value] == r
          && s.results[r].job.value in s.jobs && s.results[r].manifest == s.jobs[s.results[r].job.value].manifest)
    && (forall r :: r in s.results ==>
          s.results[r].manifest in s.manifests && s.results[r].key == s.manifests[s.results[r].manifest].key && s.results[r].key in s.cases)
    && (forall m :: m in s.manifests ==> s.manifests[m].id == m)
  }

  /** `order` lists exactly `ids`, each once. */
  ghost predicate Lists(order: seq<string>, ids: set<string>) {
    && (forall i :: 0 <= i < |order| ==> order[i] in ids)
    && (forall i, j :: 0 <= i < j < |order| ==> order[i] != order[j])
    && (forall id :: id in ids ==> id in order)
  }

  lemma ListsOneMore(order: seq<string>, ids: set<string>, id: string)
    requires Lists(order, ids) && id !in ids
    ensures Lists(order + [id], ids + {id})
  {
    assert (order + [id])[|order|] == id;
    forall x | x in ids
      ensures x in order + [id]
    {
      assert x in order;
    }
  }

  ghost predicate OrderSound(s: Store) { Lists(s.order, s.jobs.Keys) }

  ghost predicate Inv(s: Store) { JobsSound(s) && ResultsSound(s) && OrderSound(s) }

  lemma InvLinks(s: Store)
    requires Inv(s)
    ensures Linked(s) && forall id :: id in s.jobs ==> s.jobs[id].manifest in s.manifests
  {
  }

  lemma EmptyInv(caps: Caps)
    ensures Inv(Store(caps, {}, map[], map[], [], map[], map[]))
  {
  }

  // ---------------------------------------------------------------- one job changes

  /** How one job may change: what never changes, what only grows, what is final. */
  predicate JobEvolves(a: Job, b: Job) {
    && b.cluster == a.cluster && b.manifest == a.manifest && b.kind == a.kind && b.maxAttempts == a.maxAttempts
    && a.attempts <= b.attempts && (a.cancelRequested ==> b.cancelRequested) && (a.Terminal() ==> b == a)
  }

  /** How the store may change: nothing disappears, published results least of all. */
  ghost predicate Evolves(s: Store, t: Store) {
    && t.caps == s.caps && s.cases <= t.cases
    && (forall m :: m in s.manifests ==> m in t.manifests && t.manifests[m] == s.manifests[m])
    && (forall id :: id in s.jobs ==> id in t.jobs && JobEvolves(s.jobs[id], t.jobs[id]))
    && (forall r :: r in s.results ==> r in t.results && t.results[r] == s.results[r])
    && (forall id :: id in s.resultByJob ==> id in t.resultByJob && t.resultByJob[id] == s.resultByJob[id])
  }

  lemma EvolvesSelf(s: Store)
    ensures Evolves(s, s)
  {
  }

  lemma EvolvesThen(a: Store, b: Store, c: Store)
    requires Evolves(a, b) && Evolves(b, c)
    ensures Evolves(a, c)
  {
  }

  lemma PutJobs(s: Store, id: string, j: Job)
    requires JobsSound(s) && id in s.jobs && JobEvolves(s.jobs[id], j) && JobSound(j) && (j.state.Succeeded? <==> id in s.resultByJob)
    ensures JobsSound(Put(s, id, j))
  {
    hide JobSound;
  }

  lemma PutOrder(s: Store, id: string, j: Job)
    requires OrderSound(s) && id in s.jobs
    ensures OrderSound(Put(s, id, j))
  {
    assert Put(s, id, j).jobs.Keys == s.jobs.Keys;
  }

  lemma PutResults(s: Store, id: string, j: Job)
    requires ResultsSound(s) && id in s.jobs && JobEvolves(s.jobs[id], j)
    ensures ResultsSound(Put(s, id, j))
  {
  }

  lemma PutEvolves(s: Store, id: string, j: Job)
    requires id in s.jobs && JobEvolves(s.jobs[id], j)
    ensures Evolves(s, Put(s, id, j))
  {
  }

  /** Replacing one unpublished job by a sound successor that is not published either. */
  lemma PutKeeps(s: Store, id: string, j: Job)
    requires Inv(s) && id in s.jobs && JobEvolves(s.jobs[id], j) && JobSound(j) && (j.state.Succeeded? <==> id in s.resultByJob)
    ensures Inv(Put(s, id, j)) && Evolves(s, Put(s, id, j))
  {
    hide JobsSound, OrderSound, ResultsSound, Put, JobEvolves, JobSound;
    PutJobs(s, id, j);
    PutOrder(s, id, j);
    PutResults(s, id, j);
    PutEvolves(s, id, j);
  }

  function Published(s: Store, id: string, output: string, rid: string): Store
    requires id in s.jobs && s.jobs[id].manifest in s.manifests
  {
    var j, m := s.jobs[id], s.manifests[s.jobs[id].manifest];
    s.(results := s.results[rid := Record(CaseKey(j.cluster, m.key.caseId), m.id, Some(id), j.kind, output)],
       resultByJob := s.resultByJob[id := rid], jobs := s.jobs[id := Released(j, Succeeded, None)])
  }

  lemma PublishJobs(s: Store, id: string, output: string, rid: string)
    requires JobsSound(s) && id in s.jobs && s.jobs[id].Active() && !s.jobs[id].cancelRequested
    ensures JobsSound(Published(s, id, output, rid))
  {
  }

  lemma PublishOrder(s: Store, id: string, output: string, rid: string)
    requires OrderSound(s) && id in s.jobs && s.jobs[id].manifest in s.manifests
    ensures OrderSound(Published(s, id, output, rid))
  {
    assert Published(s, id, output, rid).jobs.Keys == s.jobs.Keys;
  }

  lemma PublishResults(s: Store, id: string, output: string, rid: string)
    requires ResultsSound(s) && JobsSound(s) && id in s.jobs && id !in s.resultByJob && rid !in s.results
    ensures ResultsSound(Published(s, id, output, rid))
  {
    hide JobSound;
    var t := Published(s, id, output, rid);
    var m := s.manifests[s.jobs[id].manifest];
    assert t.results[rid].key == m.key;
    forall r | r in t.results && t.results[r].job.Some?
      ensures t.results[r].job.value in t.resultByJob && t.resultByJob[t.results[r].job.value] == r
      ensures t.results[r].job.value in t.jobs && t.results[r].manifest == t.jobs[t.results[r].job.value].manifest
    {
      if r != rid { assert r in s.results && t.results[r] == s.results[r]; }
    }
  }

  lemma PublishEvolves(s: Store, id: string, output: string, rid: string)
    requires id in s.jobs && s.jobs[id].Active() && s.jobs[id].manifest in s.manifests && id !in s.resultByJob && rid !in s.results
    ensures Evolves(s, Published(s, id, output, rid))
  {
  }

  lemma CompleteKeeps(s: Store, l: Lease, output: string, rid: string, now: int)
    requires Inv(s) && rid !in s.results
    ensures Inv(CompleteIn(s, l, output, rid, now)) && Evolves(s, CompleteIn(s, l, output, rid, now))
  {
    hide Held, JobsSound, OrderSound, ResultsSound, Evolves, Put;
    EvolvesSelf(s);
    if MayPublish(s, l, now) {
      HeldActive(s, l, now);
      JobsSoundAt(s, l.job);
      if |s.results| >= s.caps.results {
        PutKeeps(s, l.job, Released(s.jobs[l.job], Failed, Some("in-memory result limit reached")));
      } else {
        PublishJobs(s, l.job, output, rid);
        PublishOrder(s, l.job, output, rid);
        PublishResults(s, l.job, output, rid);
        PublishEvolves(s, l.job, output, rid);
      }
    }
  }

  lemma JobsSoundAt(s: Store, id: string)
    requires JobsSound(s) && id in s.jobs
    ensures JobSound(s.jobs[id]) && (s.jobs[id].state.Succeeded? <==> id in s.resultByJob) && s.jobs[id].manifest in s.manifests
  {
    hide JobSound;
  }

  lemma HeldActive(s: Store, l: Lease, now: int)
    requires Held(s, l, now)
    ensures l.job in s.jobs && s.jobs[l.job].Active()
  {
  }

  lemma {:induction false} ClaimKeeps(s: Store, i: nat, owner: string, seconds: int, scope: Scope, now: int)
    requires Inv(s) && Linked(s) && i <= |s.order|
    ensures var (t, lease) := ClaimFrom(s, i, owner, seconds, scope, now);
      && Inv(t) && Evolves(s, t)
      && (lease.Some? ==> Grants(s, t, lease.value, owner, seconds, scope, now))
      && (forall id :: id in s.jobs && (lease.None? || id != lease.value.job) ==> t.jobs[id].attempts == s.jobs[id].attempts)
    decreases |s.order| - i
  {
    hide Inv, Evolves, JobSound, JobEvolves, Grants, TurnOf, Put;
    EvolvesSelf(s);
    if i < |s.order| {
      var id := s.order[i];
      match TurnOf(s.jobs[id], owner, seconds, scope, now) {
        case Skip => ClaimKeeps(s, i + 1, owner, seconds, scope, now);
        case Drop(j) =>
          TurnSound(s, id, owner, seconds, scope, now);
          PutKeeps(s, id, j);
          var u := Put(s, id, j);
          InvLinks(u);
          PutIs(s, id, j);
          ClaimKeeps(u, i + 1, owner, seconds, scope, now);
          var (t, lease) := ClaimFrom(u, i + 1, owner, seconds, scope, now);
          EvolvesThen(s, u, t);
          DroppedNotTaken(s, u, t, id, owner, seconds, scope, now, lease);
        case Take(j) =>
          TurnSound(s, id, owner, seconds, scope, now);
          PutKeeps(s, id, j);
          PutIs(s, id, j);
          TakeGrants(s, id, j, owner, seconds, scope, now);
      }
    }
  }

  /** A job that is due but may not run again is settled by the next claim that sees it. */
  predicate Retires(a: Job, b: Job, scope: Scope, now: int) {
    && scope.Sees(a.cluster) && (a.state.Queued? || Expired(a, now))
    && (a.cancelRequested || a.attempts >= a.maxAttempts)
    && b.state == (if a.cancelRequested then Cancelled else Failed) && b.owner == None && b.expires == None && b.attempts == a.attempts
  }

  /** A job a claim may lease. */
  predicate Due(j: Job, scope: Scope, now: int) {
    scope.Sees(j.cluster) && (j.state.Queued? || Expired(j, now)) && !j.cancelRequested && j.attempts < j.maxAttempts
  }

  /** What a claim does at the head of the line. */
  lemma ClaimHead(s: Store, i: nat, owner: string, seconds: int, scope: Scope, now: int)
    requires Linked(s) && i < |s.order|
    ensures var id := s.order[i];
      match TurnOf(s.jobs[id], owner, seconds, scope, now)
      case Skip => ClaimFrom(s, i, owner, seconds, scope, now) == ClaimFrom(s, i + 1, owner, seconds, scope, now)
      case Drop(j) =>
        && Linked(s.(jobs := s.jobs[id := j]))
        && ClaimFrom(s, i, owner, seconds, scope, now) == ClaimFrom(s.(jobs := s.jobs[id := j]), i + 1, owner, seconds, scope, now)
      case Take(j) =>
        && j.manifest in s.manifests
        && ClaimFrom(s, i, owner, seconds, scope, now) == (s.(jobs := s.jobs[id := j]), Some(LeaseFor(s, id, j, owner)))
  {
  }

  /** The jobs a claim does not lease stay as they are or are settled. */
  lemma {:induction false} ClaimSettles(s: Store, i: nat, owner: string, seconds: int, scope: Scope, now: int)
    requires Linked(s) && i <= |s.order|
    ensures var (t, lease) := ClaimFrom(s, i, owner, seconds, scope, now);
      forall id :: id in s.jobs && (lease.None? || id != lease.value.job) ==>
        id in t.jobs && (t.jobs[id] == s.jobs[id] || Retires(s.jobs[id], t.jobs[id], scope, now))
    decreases |s.order| - i
  {
    hide Retires, TurnOf;
    if i < |s.order| {
      hide ClaimFrom;
      var id := s.order[i];
      ClaimHead(s, i, owner, seconds, scope, now);
      match TurnOf(s.jobs[id], owner, seconds, scope, now) {
        case Skip => ClaimSettles(s, i + 1, owner, seconds, scope, now);
        case Drop(j) =>
          DropRetires(s.jobs[id], owner, seconds, scope, now, j);
          ClaimSettles(s.(jobs := s.jobs[id := j]), i + 1, owner, seconds, scope, now);
        case Take(j) =>
      }
    }
  }

  lemma DropRetires(a: Job, owner: string, seconds: int, scope: Scope, now: int, b: Job)
    requires TurnOf(a, owner, seconds, scope, now) == Drop(b)
    ensures Retires(a, b, scope, now) && !Due(a, scope, now) && !Due(b, scope, now) && forall c :: !Retires(b, c, scope, now)
  {
  }

  /** Position of the first job in line that is due, or the end of the line. */
  function FirstDue(s: Store, i: nat, scope: Scope, now: int): (k: nat)
    requires Linked(s) && i <= |s.order|
    ensures i <= k <= |s.order| && (k < |s.order| ==> Due(s.jobs[s.order[k]], scope, now))
    ensures forall m :: i <= m < k ==> !Due(s.jobs[s.order[m]], scope, now)
    decreases |s.order| - i
  {
    if i == |s.order| || Due(s.jobs[s.order[i]], scope, now) then i else FirstDue(s, i + 1, scope, now)
  }

  /** A claim leases the first job in line that is due; it comes back empty exactly when none is. */
  lemma {:induction false} ClaimTakesFirst(s: Store, i: nat, owner: string, seconds: int, scope: Scope, now: int)
    requires Linked(s) && i <= |s.order|
    ensures var lease, k := ClaimFrom(s, i, owner, seconds, scope, now).1, FirstDue(s, i, scope, now);
      if k < |s.order| then lease.Some? && lease.value.job == s.order[k] else lease.None?
    decreases |s.order| - i
  {
    hide TurnOf, Due;
    if i < |s.order| {
      hide ClaimFrom;
      var id := s.order[i];
      ClaimHead(s, i, owner, seconds, scope, now);
      TakesDue(s.jobs[id], owner, seconds, scope, now);
      match TurnOf(s.jobs[id], owner, seconds, scope, now) {
        case Skip => ClaimTakesFirst(s, i + 1, owner, seconds, scope, now);
        case Drop(j) =>
          DropRetires(s.jobs[id], owner, seconds, scope, now, j);
          DropLeavesDue(s, id, j, i + 1, scope, now);
          ClaimTakesFirst(s.(jobs := s.jobs[id := j]), i + 1, owner, seconds, scope, now);
        case Take(j) =>
      }
    }
  }

  lemma TakesDue(j: Job, owner: string, seconds: int, scope: Scope, now: int)
    ensures TurnOf(j, owner, seconds, scope, now).Take? <==> Due(j, scope, now)
  {
  }

  lemma {:induction false} DropLeavesDue(s: Store, id: string, j: Job, i: nat, scope: Scope, now: int)
    requires Linked(s) && Linked(s.(jobs := s.jobs[id := j])) && i <= |s.order| && id in s.jobs
    requires !Due(s.jobs[id], scope, now) && !Due(j, scope, now)
    ensures FirstDue(s.(jobs := s.jobs[id := j]), i, scope, now) == FirstDue(s, i, scope, now)
    decreases |s.order| - i
  {
    hide Due, Linked;
    if i < |s.order| { DropLeavesDue(s, id, j, i + 1, scope, now); }
  }

  lemma PutIs(s: Store, id: string, j: Job)
    ensures Put(s, id, j) == s.(jobs := s.jobs[id := j])
  {
  }

  lemma TakeGrants(s: Store, id: string, j: Job, owner: string, seconds: int, scope: Scope, now: int)
    requires id in s.jobs && s.jobs[id].manifest in s.manifests && TurnOf(s.jobs[id], owner, seconds, scope, now) == Take(j)
    ensures j.manifest in s.manifests && Grants(s, s.(jobs := s.jobs[id := j]), LeaseFor(s, id, j, owner), owner, seconds, scope, now)
  {
  }

  /** What issuing a lease means: the job was claimable, is now leased for the next attempt. */
  ghost predicate Grants(s: Store, t: Store, l: Lease, owner: string, seconds: int, scope: Scope, now: int) {
    && l.job in s.jobs && l.job in t.jobs && s.jobs[l.job].manifest in s.manifests
    && var a, b := s.jobs[l.job], t.jobs[l.job];
       && (a.state.Queued? || Expired(a, now)) && !a.cancelRequested && scope.Sees(a.cluster) && a.attempts < a.maxAttempts
       && b.state.Leased? && b.owner == Some(owner) && b.expires == Some(now + seconds) && b.attempts == a.attempts + 1
       && l == Lease(l.job, a.cluster, owner, a.kind, b.attempts, s.manifests[a.manifest])
  }

  lemma DroppedNotTaken(s: Store, u: Store, t: Store, id: string, owner: string, seconds: int, scope: Scope, now: int, lease: Option<Lease>)
    requires id in s.jobs && id in u.jobs && u.manifests == s.manifests && u.jobs == s.jobs[id := u.jobs[id]] && u.jobs[id].Terminal()
    requires lease.Some? ==> Grants(u, t, lease.value, owner, seconds, scope, now)
    ensures lease.Some? ==> lease.value.job != id && Grants(s, t, lease.value, owner, seconds, scope, now)
  {
  }

  lemma TurnSound(s: Store, id: string, owner: string, seconds: int, scope: Scope, now: int)
    requires Inv(s) && id in s.jobs
    ensures match TurnOf(s.jobs[id], owner, seconds, scope, now)
      case Skip => true
      case Drop(j) => j.Terminal() && j.attempts == s.jobs[id].attempts && JobSound(j) && JobEvolves(s.jobs[id], j) && (j.state.Succeeded? <==> id in s.resultByJob)
      case Take(j) => JobSound(j) && JobEvolves(s.jobs[id], j) && (j.state.Succeeded? <==> id in s.resultByJob)
  {
  }

  // ---------------------------------------------------------------- every operation

  lemma EnqueuedOrder(s: Store, m: Manifest, n: int, jid: string)
    requires OrderSound(s) && jid !in s.jobs
    ensures OrderSound(EnqueueIn(s, m, n, jid))
  {
    hide Lists, NewJob;
    if MayEnqueue(s, m, n) {
      ListsOneMore(s.order, s.jobs.Keys, jid);
      assert EnqueueIn(s, m, n, jid).jobs.Keys == s.jobs.Keys + {jid};
    }
  }

  lemma EnqueuedResults(s: Store, m: Manifest, n: int, jid: string)
    requires ResultsSound(s) && jid !in s.jobs && (m.id in s.manifests ==> s.manifests[m.id] == m)
    ensures ResultsSound(EnqueueIn(s, m, n, jid))
  {
  }

  lemma EnqueuedJobs(s: Store, m: Manifest, n: int, jid: string)
    requires JobsSound(s) && jid !in s.jobs && jid !in s.resultByJob && (m.id in s.manifests ==> s.manifests[m.id] == m)
    ensures JobsSound(EnqueueIn(s, m, n, jid))
  {
  }

  lemma EnqueueKeeps(s: Store, m: Manifest, n: int, jid: string)
    requires Inv(s) && jid !in s.jobs && (m.id in s.manifests ==> s.manifests[m.id] == m)
    ensures Inv(EnqueueIn(s, m, n, jid)) && Evolves(s, EnqueueIn(s, m, n, jid))
  {
    hide JobsSound, OrderSound;
    assert jid !in s.resultByJob;
    EnqueuedOrder(s, m, n, jid);
    EnqueuedResults(s, m, n, jid);
    EnqueuedJobs(s, m, n, jid);
    EnqueuedEvolves(s, m, n, jid);
  }

  lemma EnqueuedEvolves(s: Store, m: Manifest, n: int, jid: string)
    requires jid !in s.jobs
    ensures Evolves(s, EnqueueIn(s, m, n, jid))
  {
  }

  lemma RecordedResults(s: Store, m: Manifest, output: string, rid: string)
    requires ResultsSound(s) && rid !in s.results && (m.id in s.manifests ==> s.manifests[m.id] == m)
    ensures ResultsSound(RecordIn(s, m, output, rid))
  {
  }

  lemma RecordKeeps(s: Store, m: Manifest, output: string, rid: string)
    requires Inv(s) && rid !in s.results && (m.id in s.manifests ==> s.manifests[m.id] == m)
    ensures Inv(RecordIn(s, m, output, rid)) && Evolves(s, RecordIn(s, m, output, rid))
  {
    hide ResultsSound, JobsSound, OrderSound, Evolves;
    RecordedResults(s, m, output, rid);
    RecordedRest(s, m, output, rid);
  }

  lemma RecordedRest(s: Store, m: Manifest, output: string, rid: string)
    requires JobsSound(s) && OrderSound(s) && rid !in s.results
    ensures var t := RecordIn(s, m, output, rid); JobsSound(t) && OrderSound(t) && Evolves(s, t)
  {
    hide JobsSound, Lists;
    var t := RecordIn(s, m, output, rid);
    assert t.jobs == s.jobs && t.order == s.order && t.cases == s.cases && t.resultByJob == s.resultByJob;
    SameJobsSound(s, t);
  }

  lemma SameJobsSound(s: Store, t: Store)
    requires JobsSound(s) && t.jobs == s.jobs && t.cases == s.cases && t.resultByJob == s.resultByJob
    requires forall m :: m in s.manifests ==> m in t.manifests && t.manifests[m] == s.manifests[m]
    ensures JobsSound(t)
  {
    hide JobSound;
  }

  /** Every operation keeps the invariant and only lets the store evolve. */
  lemma OpKeeps(s: Store, op: Op)
    requires Inv(s) && Linked(s) && FreshIds(s, op) && SameManifest(s, op)
    ensures Inv(After(s, op)) && Evolves(s, After(s, op))
  {
    hide Inv, Evolves, ClaimFrom, CompleteIn, RecordIn, EnqueueIn;
    EvolvesSelf(s);
    match op {
      case CreateCase(key) => CaseKeeps(s, key);
      case RecordAnalysis(m, output, rid) => RecordKeeps(s, m, output, rid);
      case Enqueue(m, n, jid) => EnqueueKeeps(s, m, n, jid);
      case Claim(owner, seconds, scope, now) => ClaimKeeps(s, 0, owner, seconds, scope, now);
      case Complete(l, output, rid, now) => CompleteKeeps(s, l, output, rid, now);
      case CancelJob(id, scope) => CancelKeeps(s, id, scope);
      case Heartbeat(l, seconds, now, later) => LeaseOpKeeps(s, op);
      case MarkRunning(l, seconds, now, later) => LeaseOpKeeps(s, op);
      case Fail(l, error, retryable, now) => LeaseOpKeeps(s, op);
      case AcknowledgeCancel(l, now) => LeaseOpKeeps(s, op);
    }
  }

  lemma CaseKeeps(s: Store, key: CaseKey)
    requires Inv(s)
    ensures Inv(s.(cases := s.cases + {key})) && Evolves(s, s.(cases := s.cases + {key}))
  {
  }

  lemma CancelKeeps(s: Store, id: string, scope: Scope)
    requires Inv(s)
    ensures Inv(CancelIn(s, id, scope)) && Evolves(s, CancelIn(s, id, scope))
  {
    EvolvesSelf(s);
    if id in s.jobs {
      var j := s.jobs[id];
      if j.state.Queued? { PutKeeps(s, id, j.(state := Cancelled, cancelRequested := true)); }
      if j.Active() { PutKeeps(s, id, j.(cancelRequested := true)); }
    }
  }

  lemma LeaseOpKeeps(s: Store, op: Op)
    requires Inv(s) && Linked(s) && (op.Heartbeat? || op.MarkRunning? || op.Fail? || op.AcknowledgeCancel?)
    ensures Inv(After(s, op)) && Evolves(s, After(s, op))
  {
    hide JobsSound, ResultsSound, OrderSound, Evolves, ClaimFrom, Put, Linked;
    EvolvesSelf(s);
    var l := op.lease;
    if Held(s, l, op.now) {
      var j := s.jobs[l.job];
      JobsSoundAt(s, l.job);
      match op {
        case Heartbeat(_, seconds, _, later) => PutKeeps(s, l.job, j.(expires := Some(later + seconds)));
        case MarkRunning(_, seconds, _, later) => PutKeeps(s, l.job, j.(expires := Some(later + seconds), state := Running));
        case Fail(_, error, retryable, _) => PutKeeps(s, l.job, Released(j, FailState(j, retryable), Some(error)));
        case AcknowledgeCancel(_, _) => if j.cancelRequested { PutKeeps(s, l.job, Released(j, Cancelled, None)); }
      }
    }
  }
}
