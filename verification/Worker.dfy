/** One worker's handling of a leased job (services/worker/afterlock_worker/runner.py), with any
    interference by other workers, API calls, and its own heartbeat thread between its calls. */
module Worker {
  import opened Model
  import opened Jobs
  import opened Storage

  datatype Execution = Output(text: string) | PermanentError(text: string) | UnexpectedError(text: string)

  datatype OutcomeState = Idle | Done(state: JobState) | LostLease

  datatype Outcome = Outcome(job: Option<string>, state: OutcomeState, result: Option<string>)

  /** What a worker cannot control: clock readings, new ids, what others do between its calls,
      and what its heartbeat thread noted while the engine ran. */
  datatype Surroundings = Surroundings(clock: nat -> int, newId: set<string> -> string, others: nat -> seq<Op>, lost: bool, cancel: bool)
  {
    ghost predicate Valid() { forall used :: newId(used) !in used }
  }

  type Executor = (Jobs.Kind, string) -> Execution

  /** The job has a result: what the executor made of the job's intact manifest. */
  ghost predicate Published(s: Store, job: string, rid: string, exec: Executor) {
    && job in s.jobs && s.jobs[job].state.Succeeded? && s.jobs[job].manifest in s.manifests
    && job in s.resultByJob && s.resultByJob[job] == rid && rid in s.results && s.results[rid].job == Some(job)
    && var m := s.manifests[s.jobs[job].manifest];
       m.Intact() && exec(m.kind, m.payload) == Output(s.results[rid].output)
  }

  lemma PublishedStays(s: Store, t: Store, job: string, rid: string, exec: Executor)
    requires Evolves(s, t) && Published(s, job, rid, exec)
    ensures Published(t, job, rid, exec)
  {
  }

  /** The lease names its job's manifest and kind. */
  ghost predicate Matches(s: Store, l: Lease) {
    l.job in s.jobs && s.jobs[l.job].manifest in s.manifests && l.manifest == s.manifests[s.jobs[l.job].manifest] && l.kind == l.manifest.kind
  }

  lemma MatchesStays(s: Store, t: Store, l: Lease)
    requires Evolves(s, t) && Matches(s, l)
    ensures Matches(t, l)
  {
  }

  lemma GrantMatches(s: Store, owner: string, seconds: int, now: int)
    requires Inv(s) && Linked(s)
    ensures var (t, lease) := ClaimFrom(s, 0, owner, seconds, Everything, now);
      Inv(t) && Evolves(s, t) && (lease.Some? ==> Matches(t, lease.value))
  {
    hide ClaimFrom, ResultsSound, OrderSound, JobSound;
    ClaimKeeps(s, 0, owner, seconds, Everything, now);
  }

  /** Publishing through a matching lease leaves the executor's output as the job's result. */
  lemma CompletionPublishes(s: Store, l: Lease, output: string, rid: string, now: int, exec: Executor)
    requires Inv(s) && Matches(s, l) && rid !in s.results && l.manifest.Intact() && exec(l.kind, l.manifest.payload) == Output(output)
    requires Publishes(s, l, now)
    ensures Published(CompleteIn(s, l, output, rid, now), l.job, rid, exec)
  {
    hide Inv, Held;
  }

  /** Claims, runs and settles one job. Success is reported only when this very execution's
      output is the job's stored result; otherwise this call published nothing. */
  method ProcessOne(st: MemoryStorage, owner: string, seconds: int, exec: Executor, around: Surroundings) returns (o: Outcome)
    requires st.Valid() && around.Valid()
    modifies st
    ensures st.Valid() && Evolves(old(st.Snapshot()), st.Snapshot())
    ensures o.job.None? <==> o.state == Idle
    ensures o.state == Done(Succeeded) ==> o.job.Some? && o.result.Some? && Published(st.Snapshot(), o.job.value, o.result.value, exec)
    ensures o.state != Done(Succeeded) ==> o.result.None?
  {
    hide Inv, Evolves, ClaimFrom, After, Linked, Held, CompleteIn, FailIn, MarkRunningIn, AcknowledgeIn;
    ghost var s0 := st.Snapshot();
    InvLinks(s0);
    var claimed := st.Claim(owner, seconds, Everything, around.clock(0));
    GrantMatches(s0, owner, seconds, around.clock(0));
    if claimed.None? { return Outcome(None, Idle, None); }
    var l := claimed.value;
    Others(st, around.others(0), s0, l);
    if !l.manifest.Intact() {
      o := FailJob(st, l, "manifest integrity check failed", false, around.clock(1), s0);
      return;
    }
    ghost var s1 := st.Snapshot();
    KeepsOf(s1, Op.MarkRunning(l, seconds, around.clock(2), around.clock(3)));
    var status := st.MarkRunning(l, seconds, around.clock(2), around.clock(3));
    EvolvesThen(s0, s1, st.Snapshot());
    MatchesStays(s1, st.Snapshot(), l);
    if status == Lost { return Outcome(Some(l.job), LostLease, None); }
    Others(st, around.others(1), s0, l);
    if status == Cancel {
      var _ := Acknowledge(st, l, around.clock(4), s0);
      return Outcome(Some(l.job), Done(Cancelled), None);
    }
    var ran := exec(l.kind, l.manifest.payload);
    Others(st, around.others(2), s0, l);
    if !ran.Output? {
      o := FailJob(st, l, ran.text, ran.UnexpectedError?, around.clock(5), s0);
      return;
    }
    if around.lost { return Outcome(Some(l.job), LostLease, None); }
    if around.cancel {
      var acknowledged := Acknowledge(st, l, around.clock(6), s0);
      if acknowledged { return Outcome(Some(l.job), Done(Cancelled), None); }
      Others(st, around.others(3), s0, l);
    }
    o := Publish(st, l, ran.text, around, s0, exec);
  }

  /** Publishes the output, or settles for why it could not be. */
  method Publish(st: MemoryStorage, l: Lease, output: string, around: Surroundings, ghost s0: Store, exec: Executor) returns (o: Outcome)
    requires st.Valid() && around.Valid() && Evolves(s0, st.Snapshot()) && Matches(st.Snapshot(), l)
    requires l.manifest.Intact() && exec(l.kind, l.manifest.payload) == Output(output)
    modifies st
    ensures st.Valid() && Evolves(s0, st.Snapshot()) && o.job.Some? && o.state != Idle
    ensures o.state == Done(Succeeded) ==> o.result.Some? && Published(st.Snapshot(), o.job.value, o.result.value, exec)
    ensures o.state != Done(Succeeded) ==> o.result.None?
  {
    hide Inv, Evolves, After, Held, CompleteIn, AcknowledgeIn, Publishes;
    var rid := around.newId(st.results.Keys);
    ghost var s := st.Snapshot();
    KeepsOf(s, Op.Complete(l, output, rid, around.clock(7)));
    var published := st.Complete(l, output, rid, around.clock(7));
    EvolvesThen(s0, s, st.Snapshot());
    if published.Some? {
      CompletionPublishes(s, l, output, rid, around.clock(7), exec);
      return Outcome(Some(l.job), Done(Succeeded), Some(rid));
    }
    MatchesStays(s, st.Snapshot(), l);
    Others(st, around.others(4), s0, l);
    var acknowledged := Acknowledge(st, l, around.clock(8), s0);
    o := Outcome(Some(l.job), if acknowledged then Done(Cancelled) else LostLease, None);
  }

  lemma KeepsOf(s: Store, op: Op)
    requires Inv(s) && FreshIds(s, op) && SameManifest(s, op)
    ensures match op
      case Complete(l, output, rid, now) => Keeps(s, CompleteIn(s, l, output, rid, now))
      case Fail(l, error, retryable, now) => Keeps(s, FailIn(s, l, error, retryable, now))
      case MarkRunning(l, seconds, now, later) => Keeps(s, MarkRunningIn(s, l, seconds, now, later))
      case AcknowledgeCancel(l, now) => Keeps(s, AcknowledgeIn(s, l, now))
      case _ => true
  {
    hide Inv, Evolves, CompleteIn, FailIn, MarkRunningIn, AcknowledgeIn, ClaimFrom;
    InvLinks(s);
    OpKeeps(s, op);
  }

  ghost predicate Keeps(s: Store, t: Store) { Inv(t) && Evolves(s, t) }

  method Others(st: MemoryStorage, ops: seq<Op>, ghost s0: Store, ghost l: Lease)
    requires st.Valid() && Evolves(s0, st.Snapshot()) && Matches(st.Snapshot(), l)
    modifies st
    ensures st.Valid() && Evolves(s0, st.Snapshot()) && Matches(st.Snapshot(), l)
  {
    hide Inv, Evolves;
    ghost var s := st.Snapshot();
    st.Meanwhile(ops);
    EvolvesThen(s0, s, st.Snapshot());
    MatchesStays(s, st.Snapshot(), l);
  }

  method FailJob(st: MemoryStorage, l: Lease, error: string, retryable: bool, now: int, ghost s0: Store) returns (o: Outcome)
    requires st.Valid() && Evolves(s0, st.Snapshot())
    modifies st
    ensures st.Valid() && Evolves(s0, st.Snapshot())
    ensures o.job == Some(l.job) && o.state != Idle && o.state != Done(Succeeded) && o.result == None
  {
    hide Inv, Evolves, After, Held, FailIn;
    ghost var s := st.Snapshot();
    KeepsOf(s, Op.Fail(l, error, retryable, now));
    var state := st.Fail(l, error, retryable, now);
    EvolvesThen(s0, s, st.Snapshot());
    o := Outcome(Some(l.job), if state.Some? then Done(state.value) else LostLease, None);
  }

  method Acknowledge(st: MemoryStorage, l: Lease, now: int, ghost s0: Store) returns (done: bool)
    requires st.Valid() && Evolves(s0, st.Snapshot())
    modifies st
    ensures st.Valid() && Evolves(s0, st.Snapshot())
    ensures Matches(old(st.Snapshot()), l) ==> Matches(st.Snapshot(), l)
  {
    hide Inv, Evolves, After, Held, AcknowledgeIn;
    ghost var s := st.Snapshot();
    KeepsOf(s, Op.AcknowledgeCancel(l, now));
    done := st.AcknowledgeCancel(l, now);
    EvolvesThen(s0, s, st.Snapshot());
    if Matches(s, l) { MatchesStays(s, st.Snapshot(), l); }
  }

  /** Processes jobs until none can be claimed; everything reported as done stays done. */
  method Drain(st: MemoryStorage, owner: string, seconds: int, exec: Executor, limit: nat, around: seq<Surroundings>) returns (outs: seq<Outcome>)
    requires st.Valid() && |around| == limit && forall a :: a in around ==> a.Valid()
    modifies st
    ensures st.Valid() && Evolves(old(st.Snapshot()), st.Snapshot()) && |outs| <= limit
    ensures forall o :: o in outs ==> o.state != Idle
    ensures forall o :: o in outs && o.state == Done(Succeeded) ==> o.job.Some? && o.result.Some? && Published(st.Snapshot(), o.job.value, o.result.value, exec)
  {
    hide Inv, Evolves, Published;
    outs := [];
    EvolvesSelf(st.Snapshot());
    for i := 0 to limit
      invariant st.Valid() && Evolves(old(st.Snapshot()), st.Snapshot()) && |outs| <= i
      invariant forall o :: o in outs ==> o.state != Idle
      invariant forall o :: o in outs && o.state == Done(Succeeded) ==> o.job.Some? && o.result.Some? && Published(st.Snapshot(), o.job.value, o.result.value, exec)
    {
      ghost var before := st.Snapshot();
      var o := ProcessOne(st, owner, seconds, exec, around[i]);
      EvolvesThen(old(st.Snapshot()), before, st.Snapshot());
      forall x | x in outs && x.state == Done(Succeeded)
        ensures Published(st.Snapshot(), x.job.value, x.result.value, exec)
      {
        PublishedStays(before, st.Snapshot(), x.job.value, x.result.value, exec);
      }
      if o.state == Idle { return; }
      outs := outs + [o];
    }
  }
}
