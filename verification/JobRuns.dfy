/** Every interleaving of storage operations by any number of API callers and workers, with
    arbitrary clock readings: what no run can break. */
module JobRuns {
  import opened Model
  import opened Jobs

  /** The store together with every lease issued so far. */
  datatype Ledger = Ledger(store: Store, issued: seq<Lease>)

  predicate Admissible(s: Store, op: Op) { FreshIds(s, op) && SameManifest(s, op) }

  function Step(w: Ledger, op: Op): Ledger
    requires Linked(w.store)
  {
    var lease := Issues(w.store, op);
    Ledger(After(w.store, op), if lease.Some? then w.issued + [lease.value] else w.issued)
  }

  function Issued(issued: seq<Lease>, id: string): nat {
    if issued == [] then 0
    else Issued(issued[..|issued| - 1], id) + if issued[|issued| - 1].job == id then 1 else 0
  }

  /** Leases carry increasing attempt numbers, as many as the job has attempts. */
  ghost predicate LedgerInv(w: Ledger) {
    && Inv(w.store)
    && (forall i :: 0 <= i < |w.issued| ==> Recorded(w.store, w.issued[i]))
    && (forall i, j :: 0 <= i < j < |w.issued| && w.issued[i].job == w.issued[j].job ==> w.issued[i].attempt < w.issued[j].attempt)
    && (forall id :: id in w.store.jobs ==> Issued(w.issued, id) == w.store.jobs[id].attempts)
    && (forall id :: id !in w.store.jobs ==> Issued(w.issued, id) == 0)
  }

  predicate Recorded(s: Store, l: Lease) {
    && l.job in s.jobs && 1 <= l.attempt <= s.jobs[l.job].attempts
    && l.cluster == s.jobs[l.job].cluster && l.kind == s.jobs[l.job].kind
    && s.jobs[l.job].manifest in s.manifests && l.manifest == s.manifests[s.jobs[l.job].manifest]
  }

  /** A run of operations, each admissible when made. */
  ghost predicate Runs(w: Ledger, ops: seq<Op>, t: Ledger) {
    if ops == [] then t == w
    else exists m :: Runs(w, ops[..|ops| - 1], m) && Linked(m.store) && Admissible(m.store, ops[|ops| - 1]) && t == Step(m, ops[|ops| - 1])
  }

  // ---------------------------------------------------------------- one operation

  lemma RecordedStays(s: Store, t: Store, l: Lease)
    requires Recorded(s, l) && Evolves(s, t)
    ensures Recorded(t, l)
  {
  }

  lemma IssuedMore(issued: seq<Lease>, l: Lease, id: string)
    ensures Issued(issued + [l], id) == Issued(issued, id) + if l.job == id then 1 else 0
  {
    assert (issued + [l])[..|issued|] == issued;
  }

  lemma LeaseOpJobs(s: Store, op: Op)
    requires Linked(s) && (op.Heartbeat? || op.MarkRunning? || op.Fail? || op.AcknowledgeCancel?)
    ensures After(s, op).jobs.Keys == s.jobs.Keys
    ensures forall id :: id in s.jobs ==> After(s, op).jobs[id].attempts == s.jobs[id].attempts
  {
    hide ClaimFrom, FailState;
  }

  lemma CompleteJobs(s: Store, op: Op)
    requires Linked(s) && op.Complete?
    ensures After(s, op).jobs.Keys == s.jobs.Keys
    ensures forall id :: id in s.jobs ==> After(s, op).jobs[id].attempts == s.jobs[id].attempts
  {
    hide ClaimFrom;
  }

  lemma EnqueueJobs(s: Store, m: Manifest, n: int, jid: string)
    requires jid !in s.jobs
    ensures EnqueueIn(s, m, n, jid).jobs == s.jobs || EnqueueIn(s, m, n, jid).jobs == s.jobs[jid := NewJob(m, n)]
  {
  }

  lemma CancelJobs(s: Store, id: string, scope: Scope)
    ensures CancelIn(s, id, scope).jobs.Keys == s.jobs.Keys
    ensures forall x :: x in s.jobs ==> CancelIn(s, id, scope).jobs[x].attempts == s.jobs[x].attempts
  {
  }

  lemma RecordJobs(s: Store, m: Manifest, output: string, rid: string)
    ensures RecordIn(s, m, output, rid).jobs == s.jobs
  {
  }

  /** Only enqueueing adds a job, with no attempts; only a claim changes attempt counts. */
  lemma JobsKept(s: Store, op: Op)
    requires Linked(s) && !op.Claim? && FreshIds(s, op)
    ensures After(s, op).jobs.Keys == s.jobs.Keys || (op.Enqueue? && After(s, op).jobs.Keys == s.jobs.Keys + {op.jid})
    ensures forall id :: id in After(s, op).jobs ==> After(s, op).jobs[id].attempts == OldAttempts(s, id)
  {
    hide ClaimFrom, Held, MayPublish, MayEnqueue, Linked, CompleteIn, FailIn, HeartbeatIn, MarkRunningIn, AcknowledgeIn,
      EnqueueIn, CancelIn, RecordIn;
    match op {
      case Heartbeat(_, _, _, _) => LeaseOpJobs(s, op);
      case MarkRunning(_, _, _, _) => LeaseOpJobs(s, op);
      case Fail(_, _, _, _) => LeaseOpJobs(s, op);
      case AcknowledgeCancel(_, _) => LeaseOpJobs(s, op);
      case Complete(_, _, _, _) => CompleteJobs(s, op);
      case Enqueue(m, n, jid) => EnqueueJobs(s, m, n, jid);
      case CancelJob(id, scope) => CancelJobs(s, id, scope);
      case RecordAnalysis(m, output, rid) => RecordJobs(s, m, output, rid);
      case CreateCase(_) =>
    }
  }

  /** Only a claim changes attempt counts, and only the one of the lease it issues. */
  lemma AttemptsOf(s: Store, op: Op, id: string)
    requires Inv(s) && Linked(s) && FreshIds(s, op) && id in After(s, op).jobs
    ensures After(s, op).jobs[id].attempts == OldAttempts(s, id) + if Leases(s, op, id) then 1 else 0
  {
    hide Inv, ClaimFrom, Grants, Linked;
    if op.Claim? {
      ClaimKeeps(s, 0, op.owner, op.seconds, op.scope, op.now);
      ClaimJobs(s, 0, op.owner, op.seconds, op.scope, op.now);
      if Issues(s, op).Some? { GrantAttempts(s, op); }
    } else {
      JobsKept(s, op);
    }
  }

  function OldAttempts(s: Store, id: string): nat { if id in s.jobs then s.jobs[id].attempts else 0 }

  predicate Leases(s: Store, op: Op, id: string)
    requires Linked(s)
  {
    Issues(s, op).Some? && Issues(s, op).value.job == id
  }

  lemma GrantAttempts(s: Store, op: Op)
    requires Inv(s) && Linked(s) && op.Claim? && Issues(s, op).Some?
    ensures var l := Issues(s, op).value;
      l.job in s.jobs && l.job in After(s, op).jobs && After(s, op).jobs[l.job].attempts == s.jobs[l.job].attempts + 1
  {
    hide Inv, ClaimFrom;
    ClaimKeeps(s, 0, op.owner, op.seconds, op.scope, op.now);
  }

  lemma {:induction false} ClaimJobs(s: Store, i: nat, owner: string, seconds: int, scope: Scope, now: int)
    requires Linked(s) && i <= |s.order|
    ensures ClaimFrom(s, i, owner, seconds, scope, now).0.jobs.Keys == s.jobs.Keys
    decreases |s.order| - i
  {
    hide TurnOf;
    if i < |s.order| {
      match TurnOf(s.jobs[s.order[i]], owner, seconds, scope, now) {
        case Skip => ClaimJobs(s, i + 1, owner, seconds, scope, now);
        case Drop(j) =>
          DropLinked(s, i, owner, seconds, scope, now);
          ClaimJobs(s.(jobs := s.jobs[s.order[i] := j]), i + 1, owner, seconds, scope, now);
        case Take(j) =>
      }
    }
  }

  lemma DropLinked(s: Store, i: nat, owner: string, seconds: int, scope: Scope, now: int)
    requires Linked(s) && i < |s.order| && TurnOf(s.jobs[s.order[i]], owner, seconds, scope, now).Drop?
    ensures Linked(s.(jobs := s.jobs[s.order[i] := TurnOf(s.jobs[s.order[i]], owner, seconds, scope, now).job]))
  {
  }

  lemma IssuedRecorded(s: Store, op: Op)
    requires Inv(s) && Linked(s) && Issues(s, op).Some?
    ensures var l := Issues(s, op).value;
      l.job in s.jobs && Recorded(After(s, op), l) && l.attempt == s.jobs[l.job].attempts + 1
  {
    hide Inv, ClaimFrom;
    ClaimKeeps(s, 0, op.owner, op.seconds, op.scope, op.now);
  }

  lemma StepCounts(w: Ledger, op: Op)
    requires LedgerInv(w) && Linked(w.store) && Admissible(w.store, op)
    ensures var t := Step(w, op);
      && (forall id :: id in t.store.jobs ==> Issued(t.issued, id) == t.store.jobs[id].attempts)
      && (forall id :: id !in t.store.jobs ==> Issued(t.issued, id) == 0)
  {
    hide Inv, After, Issues, Recorded;
    var t, lease := Step(w, op), Issues(w.store, op);
    forall id
      ensures id in t.store.jobs ==> Issued(t.issued, id) == t.store.jobs[id].attempts
      ensures id !in t.store.jobs ==> Issued(t.issued, id) == 0
    {
      if lease.Some? { IssuedMore(w.issued, lease.value, id); }
      OpKeeps(w.store, op);
      StepCount(w, op, id);
    }
  }

  lemma StepCount(w: Ledger, op: Op, id: string)
    requires Inv(w.store) && Linked(w.store) && Admissible(w.store, op) && Evolves(w.store, After(w.store, op))
    ensures var after := After(w.store, op);
      id in after.jobs ==> after.jobs[id].attempts == OldAttempts(w.store, id) + if Leases(w.store, op, id) then 1 else 0
    ensures id !in After(w.store, op).jobs ==> id !in w.store.jobs && !Leases(w.store, op, id)
  {
    hide Inv, After, Issues;
    if id in After(w.store, op).jobs { AttemptsOf(w.store, op, id); }
    if Issues(w.store, op).Some? { IssuedRecorded(w.store, op); }
  }

  /** Every admissible operation keeps the ledger sound. */
  lemma StepKeeps(w: Ledger, op: Op)
    requires LedgerInv(w) && Linked(w.store) && Admissible(w.store, op)
    ensures LedgerInv(Step(w, op)) && Evolves(w.store, Step(w, op).store) && w.issued <= Step(w, op).issued
  {
    hide Inv, After, Issues, Evolves, Issued, Recorded;
    var t, lease := Step(w, op), Issues(w.store, op);
    OpKeeps(w.store, op);
    StepCounts(w, op);
    forall i | 0 <= i < |w.issued|
      ensures Recorded(t.store, w.issued[i])
    {
      RecordedStays(w.store, t.store, w.issued[i]);
    }
    if lease.Some? {
      IssuedRecorded(w.store, op);
      forall i | 0 <= i < |w.issued| && w.issued[i].job == lease.value.job
        ensures w.issued[i].attempt < lease.value.attempt
      {
        RecordedAttempt(w.store, w.issued[i]);
      }
    }
  }

  lemma RecordedAttempt(s: Store, l: Lease)
    requires Recorded(s, l)
    ensures l.job in s.jobs && l.attempt <= s.jobs[l.job].attempts
  {
  }

  /** Over any run the ledger stays sound and the store only evolves: terminal jobs, results and
      manifests stay exactly as they were. */
  lemma {:induction false} RunKeeps(w: Ledger, ops: seq<Op>, t: Ledger)
    requires LedgerInv(w) && Runs(w, ops, t)
    ensures LedgerInv(t) && Evolves(w.store, t.store) && w.issued <= t.issued
  {
    hide LedgerInv, Evolves, Step, Admissible;
    if ops == [] {
      EvolvesSelf(w.store);
    } else {
      var m :| Runs(w, ops[..|ops| - 1], m) && Linked(m.store) && Admissible(m.store, ops[|ops| - 1]) && t == Step(m, ops[|ops| - 1]);
      RunKeeps(w, ops[..|ops| - 1], m);
      StepKeeps(m, ops[|ops| - 1]);
      EvolvesThen(w.store, m.store, t.store);
    }
  }

  // ---------------------------------------------------------------- what no run can break

  /** At most one issued lease of a job is held, whoever asks and whatever the clocks say. */
  lemma OneHolder(w: Ledger, i: nat, j: nat, now: int, later: int)
    requires LedgerInv(w) && i < |w.issued| && j < |w.issued| && w.issued[i].job == w.issued[j].job
    requires Held(w.store, w.issued[i], now) && Held(w.store, w.issued[j], later)
    ensures i == j
  {
    hide Inv, Issued, Recorded;
  }

  /** Attempts, and with them leases, never exceed the job's budget. */
  lemma LeasesBounded(w: Ledger, id: string)
    requires LedgerInv(w) && id in w.store.jobs
    ensures Issued(w.issued, id) == w.store.jobs[id].attempts <= w.store.jobs[id].maxAttempts <= 10
  {
    hide ResultsSound, OrderSound, Recorded, Issued;
    JobsSoundAt(w.store, id);
  }

  /** Once a job was leased again, an older lease is never held again in any run. */
  lemma StaleForever(w: Ledger, ops: seq<Op>, t: Ledger, l: Lease, now: int)
    requires LedgerInv(w) && Runs(w, ops, t) && l.job in w.store.jobs && l.attempt < w.store.jobs[l.job].attempts
    ensures !Held(t.store, l, now)
  {
    hide LedgerInv;
    RunKeeps(w, ops, t);
  }

  /** A finished job never changes, and its outcome says whether it was cancelled or published. */
  lemma FinishedForever(w: Ledger, ops: seq<Op>, t: Ledger, id: string)
    requires LedgerInv(w) && Runs(w, ops, t) && id in w.store.jobs && w.store.jobs[id].Terminal()
    ensures id in t.store.jobs && t.store.jobs[id] == w.store.jobs[id]
    ensures t.store.jobs[id].state.Cancelled? <==> t.store.jobs[id].cancelRequested
    ensures t.store.jobs[id].state.Succeeded? <==> id in t.store.resultByJob
  {
    hide ResultsSound, OrderSound, Recorded, Issued;
    RunKeeps(w, ops, t);
    JobsSoundAt(t.store, id);
  }

  /** A published result is the job's only one, for good, and rests on an existing manifest and case. */
  lemma PublishedOnce(w: Ledger, ops: seq<Op>, t: Ledger, id: string, rid: string)
    requires LedgerInv(w) && Runs(w, ops, t) && id in w.store.resultByJob
    requires rid in t.store.results && t.store.results[rid].job == Some(id)
    ensures rid == w.store.resultByJob[id] && rid in w.store.results && t.store.results[rid] == w.store.results[rid]
    ensures t.store.results[rid].manifest in t.store.manifests && t.store.results[rid].key in t.store.cases
  {
    hide JobsSound, OrderSound, Recorded, Issued;
    RunKeeps(w, ops, t);
  }

  /** A result appears only by the completion of a lease that is current, unexpired and not
      cancelled, and carries exactly what was completed with. */
  lemma PublishedByHolder(s: Store, op: Op, id: string)
    requires Inv(s) && Linked(s) && FreshIds(s, op) && id in After(s, op).resultByJob && id !in s.resultByJob
    ensures op.Complete? && op.lease.job == id && Held(s, op.lease, op.now) && !s.jobs[id].cancelRequested
    ensures var t := After(s, op);
      && t.resultByJob[id] == op.rid && op.rid in t.results && t.results[op.rid].output == op.output
      && t.results[op.rid].job == Some(id) && t.jobs[id].state.Succeeded?
  {
    hide Inv, ClaimFrom;
    if op.Claim? { ClaimResults(s, 0, op.owner, op.seconds, op.scope, op.now); }
  }

  lemma {:induction false} ClaimResults(s: Store, i: nat, owner: string, seconds: int, scope: Scope, now: int)
    requires Linked(s) && i <= |s.order|
    ensures ClaimFrom(s, i, owner, seconds, scope, now).0.resultByJob == s.resultByJob
    decreases |s.order| - i
  {
    hide TurnOf;
    if i < |s.order| {
      match TurnOf(s.jobs[s.order[i]], owner, seconds, scope, now) {
        case Skip => ClaimResults(s, i + 1, owner, seconds, scope, now);
        case Drop(j) =>
          DropLinked(s, i, owner, seconds, scope, now);
          ClaimResults(s.(jobs := s.jobs[s.order[i] := j]), i + 1, owner, seconds, scope, now);
        case Take(j) =>
      }
    }
  }
}
