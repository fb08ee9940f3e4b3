/** The in-memory storage backend: its fields and its methods, each tied to the state the job
    protocol prescribes (services/api/afterlock_api/storage.py). One lock guards every method. */
module Storage {
  import opened Model
  import opened Jobs
  import opened JobRuns

  /** One turn of a claim. */
  lemma ClaimTurn(s: Store, i: nat, owner: string, seconds: int, scope: Scope, now: int)
    requires Linked(s) && i < |s.order|
    ensures match TurnOf(s.jobs[s.order[i]], owner, seconds, scope, now)
      case Skip => ClaimFrom(s, i, owner, seconds, scope, now) == ClaimFrom(s, i + 1, owner, seconds, scope, now)
      case Drop(j) =>
        var t := s.(jobs := s.jobs[s.order[i] := j]);
        Linked(t) && ClaimFrom(s, i, owner, seconds, scope, now) == ClaimFrom(t, i + 1, owner, seconds, scope, now)
      case Take(j) =>
        && j.manifest in s.manifests
        && ClaimFrom(s, i, owner, seconds, scope, now) == (s.(jobs := s.jobs[s.order[i] := j]), Some(LeaseFor(s, s.order[i], j, owner)))
  {
    if TurnOf(s.jobs[s.order[i]], owner, seconds, scope, now).Drop? { DropLinked(s, i, owner, seconds, scope, now); }
  }

  lemma ClaimEnds(s: Store, owner: string, seconds: int, scope: Scope, now: int)
    requires Linked(s)
    ensures ClaimFrom(s, |s.order|, owner, seconds, scope, now) == (s, None)
  {
  }

  lemma LeasedAttempt(j: Job, owner: string, now: int, seconds: int)
    ensures var t := LeasedTo(j, owner, now, seconds);
      t.attempts == j.attempts + 1 && t.cluster == j.cluster && t.kind == j.kind && t.manifest == j.manifest
  {
  }

  class MemoryStorage {
    const caps: Caps
    var cases: set<CaseKey>
    var manifests: map<string, Manifest>
    var jobs: map<string, Job>
    var order: seq<string>
    var results: map<string, Record>
    var resultByJob: map<string, string>

    function Snapshot(): Store
      reads this
    {
      Store(caps, cases, manifests, jobs, order, results, resultByJob)
    }

    ghost predicate Valid()
      reads this
    {
      Inv(Snapshot())
    }

    constructor (caps: Caps)
      ensures Valid() && Snapshot() == Store(caps, {}, map[], map[], [], map[], map[])
    {
      this.caps := caps;
      cases, manifests, jobs, order, results, resultByJob := {}, map[], map[], [], map[], map[];
      new;
      EmptyInv(caps);
    }

    method CreateCase(key: CaseKey) returns (created: bool, full: bool)
      modifies this
      ensures Snapshot() == old(if |cases| < caps.cases then Snapshot().(cases := cases + {key}) else Snapshot())
      ensures created <==> key !in old(cases) && key in cases
      ensures full ==> key !in cases
    {
      created, full := false, false;
      if key in cases {
        assert cases + {key} == cases;
        return;
      }
      if |cases| >= caps.cases { return false, true; }
      cases := cases + {key};
      created := true;
    }

    method PutManifest(m: Manifest)
      modifies this`manifests
      ensures Snapshot() == Jobs.PutManifest(old(Snapshot()), m)
    {
      if m.id !in manifests { manifests := manifests[m.id := m]; }
    }

    /** Stores an inline analysis; `None` when the store is full or the case unknown. */
    method RecordAnalysis(m: Manifest, output: string, rid: string) returns (stored: Option<string>)
      modifies this
      ensures Snapshot() == RecordIn(old(Snapshot()), m, output, rid)
      ensures stored == if |old(results)| < caps.results && m.key in old(cases) then Some(rid) else None
    {
      stored := None;
      if |results| >= caps.results || m.key !in cases { return; }
      PutManifest(m);
      results := results[rid := Record(m.key, m.id, None, m.kind, output)];
      stored := Some(rid);
    }

    method Enqueue(m: Manifest, maxAttempts: int, jid: string) returns (queued: Option<string>)
      modifies this
      ensures Snapshot() == EnqueueIn(old(Snapshot()), m, maxAttempts, jid)
      ensures queued.Some? <==> MayEnqueue(old(Snapshot()), m, maxAttempts)
    {
      queued := None;
      if !(1 <= maxAttempts <= 10) || |jobs| >= caps.jobs || m.key !in cases { return; }
      PutManifest(m);
      jobs := jobs[jid := NewJob(m, maxAttempts)];
      order := order + [jid];
      queued := Some(jid);
    }

    /** Settles overdue jobs in creation order until one can be leased. */
    method Claim(owner: string, seconds: int, scope: Scope, now: int) returns (lease: Option<Lease>)
      requires Valid()
      modifies this`jobs
      ensures Linked(old(Snapshot())) && (Snapshot(), lease) == ClaimFrom(old(Snapshot()), 0, owner, seconds, scope, now)
    {
      hide Inv, ClaimFrom, Released, LeasedTo;
      InvLinks(Snapshot());
      for i := 0 to |order|
        invariant Linked(Snapshot())
        invariant ClaimFrom(Snapshot(), i, owner, seconds, scope, now) == old(ClaimFrom(Snapshot(), 0, owner, seconds, scope, now))
      {
        var id := order[i];
        var j := jobs[id];
        ClaimTurn(Snapshot(), i, owner, seconds, scope, now);
        if !scope.Sees(j.cluster) { continue; }
        var expired := j.Active() && j.expires.Some? && j.expires.value <= now;
        if !(j.state.Queued? || expired) { continue; }
        if j.cancelRequested {
          jobs := jobs[id := Released(j, Cancelled, None)];
          continue;
        }
        if j.attempts >= j.maxAttempts {
          jobs := jobs[id := Released(j, Failed, Some("lease expired and retry budget exhausted"))];
          continue;
        }
        jobs := jobs[id := LeasedTo(j, owner, now, seconds)];
        LeasedAttempt(j, owner, now, seconds);
        return Some(Lease(id, j.cluster, owner, j.kind, j.attempts + 1, manifests[j.manifest]));
      }
      lease := None;
      ClaimEnds(Snapshot(), owner, seconds, scope, now);
    }

    method Heartbeat(l: Lease, seconds: int, now: int, later: int) returns (status: HeartbeatStatus)
      modifies this`jobs
      ensures Snapshot() == HeartbeatIn(old(Snapshot()), l, seconds, now, later) && status == Jobs.StatusOf(old(Snapshot()), l, now)
    {
      if !Held(Snapshot(), l, now) { return Lost; }
      jobs := jobs[l.job := jobs[l.job].(expires := Some(later + seconds))];
      status := if jobs[l.job].cancelRequested then Cancel else Ok;
    }

    method MarkRunning(l: Lease, seconds: int, now: int, later: int) returns (status: HeartbeatStatus)
      modifies this`jobs
      ensures Snapshot() == MarkRunningIn(old(Snapshot()), l, seconds, now, later) && status == Jobs.StatusOf(old(Snapshot()), l, now)
    {
      status := Heartbeat(l, seconds, now, later);
      if status != Lost { jobs := jobs[l.job := jobs[l.job].(state := Running)]; }
    }

    method Complete(l: Lease, output: string, rid: string, now: int) returns (published: Option<string>)
      modifies this
      ensures Snapshot() == CompleteIn(old(Snapshot()), l, output, rid, now)
      ensures published == if Publishes(old(Snapshot()), l, now) then Some(rid) else None
    {
      published := None;
      if !Held(Snapshot(), l, now) { return; }
      var j := jobs[l.job];
      if j.cancelRequested || l.job in resultByJob { return; }
      if j.manifest !in manifests || manifests[j.manifest].key !in cases { return; }
      if |results| >= caps.results {
        jobs := jobs[l.job := Released(j, Failed, Some("in-memory result limit reached"))];
        return;
      }
      var m := manifests[j.manifest];
      results := results[rid := Record(CaseKey(j.cluster, m.key.caseId), m.id, Some(l.job), j.kind, output)];
      resultByJob := resultByJob[l.job := rid];
      jobs := jobs[l.job := Released(j, Succeeded, None)];
      published := Some(rid);
    }

    method Fail(l: Lease, error: string, retryable: bool, now: int) returns (state: Option<JobState>)
      modifies this`jobs
      ensures Snapshot() == FailIn(old(Snapshot()), l, error, retryable, now)
      ensures state == if Held(old(Snapshot()), l, now) then Some(FailState(old(jobs)[l.job], retryable)) else None
    {
      if !Held(Snapshot(), l, now) { return None; }
      var j := jobs[l.job];
      if j.cancelRequested { jobs := jobs[l.job := Released(j, Cancelled, Some(error))]; }
      else if retryable && j.attempts < j.maxAttempts { jobs := jobs[l.job := Released(j, Queued, Some(error))]; }
      else { jobs := jobs[l.job := Released(j, Failed, Some(error))]; }
      state := Some(jobs[l.job].state);
    }

    method CancelJob(id: string, scope: Scope) returns (seen: bool)
      modifies this`jobs
      ensures Snapshot() == CancelIn(old(Snapshot()), id, scope)
      ensures seen <==> id in jobs && scope.Sees(jobs[id].cluster)
    {
      if id !in jobs || !scope.Sees(jobs[id].cluster) { return false; }
      var j := jobs[id];
      if j.state.Queued? { jobs := jobs[id := j.(state := Cancelled, cancelRequested := true)]; }
      else if j.Active() { jobs := jobs[id := j.(cancelRequested := true)]; }
      seen := true;
    }

    method AcknowledgeCancel(l: Lease, now: int) returns (done: bool)
      modifies this`jobs
      ensures Snapshot() == AcknowledgeIn(old(Snapshot()), l, now) && done == MayAcknowledge(old(Snapshot()), l, now)
    {
      if !Held(Snapshot(), l, now) || !jobs[l.job].cancelRequested { return false; }
      jobs := jobs[l.job := Released(jobs[l.job], Cancelled, None)];
      done := true;
    }

    /** Any one operation, as another thread or process may issue it. */
    method Perform(op: Op)
      requires Valid() && Admissible(Snapshot(), op)
      modifies this
      ensures Linked(old(Snapshot())) && Snapshot() == After(old(Snapshot()), op)
      ensures Valid() && Evolves(old(Snapshot()), Snapshot())
    {
      hide Inv, ClaimFrom, Evolves, CompleteIn, RecordIn, EnqueueIn, CancelIn, Held;
      InvLinks(Snapshot());
      OpKeeps(Snapshot(), op);
      match op {
        case CreateCase(key) => var _, _ := CreateCase(key);
        case RecordAnalysis(m, output, rid) => var _ := RecordAnalysis(m, output, rid);
        case Enqueue(m, n, jid) => var _ := Enqueue(m, n, jid);
        case Claim(owner, seconds, scope, now) => var _ := Claim(owner, seconds, scope, now);
        case Heartbeat(l, seconds, now, later) => var _ := Heartbeat(l, seconds, now, later);
        case MarkRunning(l, seconds, now, later) => var _ := MarkRunning(l, seconds, now, later);
        case Complete(l, output, rid, now) => var _ := Complete(l, output, rid, now);
        case Fail(l, error, retryable, now) => var _ := Fail(l, error, retryable, now);
        case CancelJob(id, scope) => var _ := CancelJob(id, scope);
        case AcknowledgeCancel(l, now) => var _ := AcknowledgeCancel(l, now);
      }
    }

    /** Whatever others do in the meantime; operations whose new id is taken do not happen. */
    method Meanwhile(ops: seq<Op>)
      requires Valid()
      modifies this
      ensures Valid() && Evolves(old(Snapshot()), Snapshot())
    {
      hide Inv, Evolves, After, Linked, Admissible;
      EvolvesSelf(Snapshot());
      for i := 0 to |ops|
        invariant Valid() && Evolves(old(Snapshot()), Snapshot())
      {
        ghost var before := Snapshot();
        if Admissible(Snapshot(), ops[i]) {
          Perform(ops[i]);
          EvolvesThen(old(Snapshot()), before, Snapshot());
        }
      }
    }
  }
}
