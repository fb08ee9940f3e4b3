/** A witness overtaken by its own token: a UID changes its account, time passes, and the engine's
    table holds the new token where an earlier step used the old one. The replay checks that step
    with the token it finds and rejects a true witness. */
module Overtaken {
  import opened Model
  import opened Semantics
  import opened Attack
  import opened Rules
  import opened Shape
  import opened Fixpoint
  import opened Case
  import opened Exactness
  import opened Termination
  import opened Replay
  import opened Witnesses
  import Story
  import opened Testimony
  import opened Acceptance
  import opened Standstill
  import opened Unclaimed
  import R = ReplicaClash

  const D := "d"
  const ID := Projected(R.P, "api")
  const KEY := Known(PRIZE, 1)
  const GOAL := CanUseDownstream(D)
  const SERVICES := map[D := Service(PRIZE, 1, 0, {})]
  const E0 := R.Before(R.A, SERVICES)
  const E1 := R.After(R.A, SERVICES)
  const E2 := E1.(time := 1)

  /** The old account may read the Secret; its Pod is replaced, and later a token's lifetime passes. */
  const CASE := Input(Static(ROLES, [], ["api"], 1), E0, map[], [InitialFact(ClaimPod(R.P), Observed)], [],
                      [DeletePod(R.P), Wait(1)], [NoDownstreamUse(D)], [], [], None, 100)

  const TOKEN := Cred(ID, "sa_token", SaUser(R.A), Some("ua"), Some(R.P), "api", Some(1))

  function EnvAt(i: nat): Env { if i == 0 then E0 else if i == 1 then E1 else E2 }
  function CtxAt(i: nat): Ctx { Ctx(CASE.st, Now, i) }

  lemma CaseParses()
    ensures WellFormed(CASE) && Parsed(CASE)
  {
  }

  lemma CaseIsReplayable()
    ensures Replayable(CASE) && HistoryClaimed(CASE, EvidenceSupported)
  {
  }

  lemma Environments()
    ensures Reconcile(E0) == E0 && Reconcile(Defend(E0, DeletePod(R.P))) == E1 && Reconcile(Defend(E1, Wait(1))) == E2
  {
    hide Reconcile;
    R.Environments(R.A, SERVICES);
    StillServed();
    ReconcileIdempotent(E2);
  }

  lemma StillServed()
    ensures Reconciled(E2)
  {
    assert E2.pods[R.P].owner == Some(R.C);
  }

  // ---------------------------------------------------------------- what the tables hold

  /** Nothing but the one token, what it read, and what that is good for, each as first derived. */
  ghost predicate Told(i: nat, s: State) {
    && (forall f :: f in s.facts ==> f in {ControlsPod(R.P), Possesses(ID), KnowsSecret(KEY), PossessesDownstream(D, 1)})
    && (forall id :: id in s.creds ==> id == ID) && ControlsPod(R.P) in s.facts
    && (ID in s.creds <==> Possesses(ID) in s.facts)
    && (ID in s.creds && i == 0 ==> s.creds[ID] == TOKEN)
    && (ID in s.creds ==> s.creds[ID].expires == Some(1) || (i == 2 && s.facts[Possesses(ID)].interval == 2))
    && (KnowsSecret(KEY) in s.facts ==> ReadWith(s.facts[KnowsSecret(KEY)]))
    && (PossessesDownstream(D, 1) in s.facts ==> s.facts[PossessesDownstream(D, 1)].premises == [KnowsSecret(KEY)])
    && (forall f :: f in s.eph ==> f == CanReadSecret(PRIZE) || (f == GOAL && s.eph[f].premises == [PossessesDownstream(D, 1)]))
  }

  predicate ReadWith(d: Derivation) {
    d.interval == 0 && d.premises == [Possesses(ID)] && CredentialChecked(ID, 0) in d.conditions && !d.rule.Evidence?
  }

  ghost predicate Complete(s: State) {
    ID in s.creds && KnowsSecret(KEY) in s.facts && PossessesDownstream(D, 1) in s.facts
  }

  lemma NoCreate(e: Env, user: User, resource: string, ns: string, name: Option<string>)
    requires OnlyFor(e.bindings, R.A)
    ensures !Authorized(CASE.st, e.bindings, user, "create", resource, ns, name)
  {
    assert forall rule :: rule in CASE.st.roles[READER] ==> rule.verbs == {"get"};
    assert AuthorizingBindings(CASE.st, e.bindings, user, "create", resource, ns, name) == {};
  }

  lemma NoCreating(i: nat, s: State, f: Firing)
    requires i <= 2 && s.env == EnvAt(i) && Told(i, s) && Ready(CtxAt(i), s, f)
    ensures !f.FireExec? && !f.FirePod? && !f.FireCtrl?
  {
    hide Authorized, CanRead, Accepted, AdmissionDecision, Told, TokenCurrent, ControlsLivePod, ControlsLiveCtrl, OnlyFor;
    var e := s.env;
    ReaderOnly(i);
    match f {
      case FireExec(id, u) => NoCreate(e, s.creds[id].user, "pods/exec", e.pods[u].ns, Some(e.pods[u].name));
      case FirePod(id, a) => NoCreate(e, s.creds[id].user, "pods", a.ns, None);
      case FireCtrl(id, a) => NoCreate(e, s.creds[id].user, "deployments", a.ns, None);
      case _ =>
    }
  }

  lemma ReaderOnly(i: nat)
    ensures OnlyFor(EnvAt(i).bindings, R.A)
  {
  }

  lemma OneOfEach(i: nat)
    ensures EnvAt(i).secrets == map[PRIZE := 1] && EnvAt(i).services == SERVICES && EnvAt(i).pods.Keys == {R.P}
    ensures Audiences(CASE.st, EnvAt(i).pods[R.P]) == ["api"]
  {
  }

  lemma OnlyThese(i: nat, s: State, f: Firing)
    requires i <= 2 && s.env == EnvAt(i) && Told(i, s) && Ready(CtxAt(i), s, f)
    ensures f == FireToken(R.P, "api") || f == FireLearn(ID, PRIZE) || f == FireRead(ID, PRIZE) || f == FireDownstream(KEY, D) || f == FireUse(D, 1)
  {
    hide EnvAt, CanRead, Accepted, ReadWith, TokenCurrent, Audiences, Authorized, AdmissionDecision, MayExec, MayCreate;
    NoCreating(i, s, f);
    OneOfEach(i);
  }

  lemma TokenTold(i: nat, s: State)
    requires i <= 2 && s.env == EnvAt(i) && Told(i, s) && (i > 0 ==> Complete(s)) && Ready(CtxAt(i), s, FireToken(R.P, "api"))
    ensures var t := Fire(CtxAt(i), s, FireToken(R.P, "api")); t.env == s.env && Told(i, t) && (i > 0 ==> Complete(t))
  {
    hide ReadWith, Reconcile, ReplicaOf;
    var t := Fire(CtxAt(i), s, FireToken(R.P, "api"));
    assert i != 1;
    assert t.facts[Possesses(ID)].interval == i;
  }

  lemma LearnTold(s: State)
    requires s.env == EnvAt(0) && Told(0, s) && Ready(CtxAt(0), s, FireLearn(ID, PRIZE))
    ensures var t := Fire(CtxAt(0), s, FireLearn(ID, PRIZE)); t.env == s.env && Told(0, t)
  {
    hide CanRead, Accepted, ReadVerb, Authz;
    var d := Derive(CtxAt(0), s, FireLearn(ID, PRIZE));
    assert d.conditions[0] == CredentialChecked(ID, 0);
    assert ReadWith(d);
  }

  lemma UseTold(i: nat, s: State, f: Firing)
    requires i <= 2 && s.env == EnvAt(i) && Told(i, s) && (i > 0 ==> Complete(s)) && Ready(CtxAt(i), s, f)
    requires f == FireRead(ID, PRIZE) || f == FireDownstream(KEY, D) || f == FireUse(D, 1)
    ensures var t := Fire(CtxAt(i), s, f); t.env == s.env && Told(i, t) && (i > 0 ==> Complete(t))
  {
    hide Authorized, CanRead, Accepted, AdmissionDecision, ReadConditions, ReadWith, EnvAt, Acts;
  }

  lemma FiringTold(i: nat, s: State, f: Firing)
    requires i <= 2 && s.env == EnvAt(i) && Told(i, s) && (i > 0 ==> Complete(s)) && Ready(CtxAt(i), s, f)
    ensures var t := Fire(CtxAt(i), s, f); t.env == s.env && Told(i, t) && (i > 0 ==> Complete(t))
  {
    hide Told, Complete, EnvAt, Fire, Ready;
    OnlyThese(i, s, f);
    match f {
      case FireToken(_, _) => TokenTold(i, s);
      case FireLearn(_, _) =>
        LearnsFirst(i, s);
        LearnTold(s);
      case _ => UseTold(i, s, f);
    }
  }

  lemma LearnsFirst(i: nat, s: State)
    requires i <= 2 && s.env == EnvAt(i) && (i > 0 ==> Complete(s)) && Ready(CtxAt(i), s, FireLearn(ID, PRIZE))
    ensures i == 0
  {
    hide CanRead, Acts;
  }

  lemma {:induction false} FiringsTold(i: nat, s: State, fs: seq<Firing>)
    requires i <= 2 && s.env == EnvAt(i) && Told(i, s) && (i > 0 ==> Complete(s)) && FireAll(CtxAt(i), s, fs).Some?
    ensures var t := FireAll(CtxAt(i), s, fs).value; t.env == s.env && Told(i, t) && (i > 0 ==> Complete(t))
  {
    hide Told, Complete, Ready, Fire, EnvAt;
    if fs != [] {
      FiringsTold(i, s, fs[..|fs| - 1]);
      FiringTold(i, FireAll(CtxAt(i), s, fs[..|fs| - 1]).value, fs[|fs| - 1]);
    }
  }

  /** With no rule ready at the start everything has been learned. */
  lemma ClosedComplete(s: State)
    requires s.env == EnvAt(0) && Told(0, s) && Closed(CtxAt(0), s)
    ensures Complete(s)
  {
    hide CanRead;
    var ctx := CtxAt(0);
    assert !Ready(ctx, s, FireToken(R.P, "api"));
    assert ID in s.creds;
    ReaderReads(CASE.st, E0.bindings, ObjKey(None, ""), R.A, PRIZE);
    assert !Ready(ctx, s, FireLearn(ID, PRIZE));
    assert !Ready(ctx, s, FireDownstream(KEY, D));
  }

  // ---------------------------------------------------------------- the run

  lemma StageTold(i: nat, s: State, t: State)
    requires i <= 2 && s.env == EnvAt(i) && Told(i, s) && (i > 0 ==> Complete(s)) && Saturates(CtxAt(i), s, t)
    ensures t.env == EnvAt(i) && Told(i, t) && Complete(t)
  {
    hide Told, Complete, Closed, EnvAt;
    var fs :| FireAll(CtxAt(i), s, fs) == Some(t);
    FiringsTold(i, s, fs);
    if i == 0 { ClosedComplete(t); }
  }

  lemma NextTold(i: nat, s: State)
    requires i < 2 && s.env == EnvAt(i) && Told(i, s) && Complete(s)
    ensures var t := NextState(s, CASE.actions[i]); t.env == EnvAt(i + 1) && Told(i + 1, t) && Complete(t)
  {
    hide Reconcile, Defend, ReadWith;
    Environments();
  }

  lemma StartTold(start: State)
    requires StartsMain(CASE, EvidenceSupported, Full, start)
    ensures start.env == EnvAt(0) && Told(0, start)
  {
    hide Reconcile;
    Environments();
  }

  lemma RunTold(stages: seq<State>)
    requires EngineRun(CASE, EvidenceSupported, Full, stages)
    ensures |stages| == 3 && (forall i :: 0 <= i <= 2 ==> stages[i].env == EnvAt(i))
    ensures Told(2, stages[2]) && Complete(stages[2]) && Closed(CtxAt(2), stages[2])
  {
    hide Told, Complete, Closed, EnvAt, NextState, StartsMain;
    var start :| StartsMain(CASE, EvidenceSupported, Full, start) && Ladder(CASE, Now, start, stages);
    StartTold(start);
    StageTold(0, start, stages[0]);
    NextTold(0, stages[0]);
    StageTold(1, NextState(stages[0], CASE.actions[0]), stages[1]);
    NextTold(1, stages[1]);
    StageTold(2, NextState(stages[1], CASE.actions[1]), stages[2]);
  }

  /** In the end the attack is reported, and the token's latest derivation is the second one's. */
  lemma InTheEnd(s: State)
    requires s.env == E2 && Told(2, s) && Complete(s) && Closed(CtxAt(2), s)
    ensures GOAL in s.eph && s.facts[Possesses(ID)].interval == 2
  {
    hide ReadWith;
    assert !Ready(CtxAt(2), s, FireToken(R.P, "api"));
    assert !Ready(CtxAt(2), s, FireUse(D, 1));
  }

  // ---------------------------------------------------------------- its witness

  /** Whatever order the witness has, it takes the token before it reads the Secret. */
  lemma WitnessReads(s: State, steps: seq<Step>) returns (j: nat, k: nat)
    requires Told(2, s) && Complete(s) && GOAL in s.eph && Linear(s.facts, s.eph, GOAL, steps)
    ensures j < k < |steps| && steps[j] == Step(Possesses(ID), s.facts[Possesses(ID)])
    ensures steps[k] == Step(KnowsSecret(KEY), s.facts[KnowsSecret(KEY)])
  {
    hide FactsOf, PremisesFirst, Distinct;
    var n := |steps| - 1;
    PremiseEarlier(steps, n, PossessesDownstream(D, 1));
    var m := EarlierStep(steps, n, PossessesDownstream(D, 1));
    TableStep(steps, s.facts, m);
    PremiseEarlier(steps, m, KnowsSecret(KEY));
    k := EarlierStep(steps, m, KnowsSecret(KEY));
    TableStep(steps, s.facts, k);
    PremiseEarlier(steps, k, Possesses(ID));
    j := EarlierStep(steps, k, Possesses(ID));
    TableStep(steps, s.facts, j);
  }

  lemma TableStep(steps: seq<Step>, facts: map<Fact, Derivation>, k: nat)
    requires k < |steps| - 1 && FromTable(steps[..|steps| - 1], facts)
    ensures steps[k].fact in facts && steps[k].d == facts[steps[k].fact]
  {
    assert steps[..|steps| - 1][k] in steps[..|steps| - 1];
  }

  lemma RanThere(stages: seq<State>, steps: seq<Step>, k: nat)
    requires EngineRun(CASE, EvidenceSupported, Full, stages) && |stages| == 3 && (forall i :: 0 <= i <= 2 ==> stages[i].env == EnvAt(i))
    requires GOAL in stages[2].eph && Linear(stages[2].facts, stages[2].eph, GOAL, steps)
    requires k < |steps| && 0 <= steps[k].d.interval <= 2
    ensures Ran(CASE, steps, k, R.P) == RunsAs(EnvAt(steps[k].d.interval), R.P)
  {
    hide EngineRun, Linear, Plain, Replayable, Backed, InputsUsed, Roots, Good, Ladder, Story.Begins, Endings, Supported, EnvAt, Reconcile, LastInterval, HistoryClaimed, ReplayAt;
    CaseParses();
    CaseIsReplayable();
    var start, first := RunBacks(CASE, EvidenceSupported, stages, GOAL, steps);
    EndingsAre(first, stages, steps[k].d.interval);
    OneOfEach(steps[k].d.interval);
    NotCreated(Roots(steps));
    UseRan(CASE, EvidenceSupported, steps, Endings(first, stages), stages[2].creds, k, R.P);
  }

  lemma NotCreated(roots: set<Uid>)
    ensures Keeps(roots, R.P)
  {
  }

  lemma Overtakes(stages: seq<State>, steps: seq<Step>)
    requires EngineRun(CASE, EvidenceSupported, Full, stages) && |stages| == 3
    requires GOAL in stages[2].eph && Linear(stages[2].facts, stages[2].eph, GOAL, steps)
    ensures !UsesHold(CASE, steps)
  {
    hide EngineRun, Linear, EnvAt, Told, Complete, Closed, Ran;
    RunTold(stages);
    EndAt(stages[2]);
    var j, k := WitnessReads(stages[2], steps);
    ReadEarly(stages[2]);
    RanThere(stages, steps, j);
    RanThere(stages, steps, k);
    TwoAccounts();
    var c := CredentialChecked(ID, 0);
    assert c in steps[k].d.conditions && Ran(CASE, steps, j, R.P) != Ran(CASE, steps, k, R.P);
    assert !UseHolds(CASE, steps, j, k);
    assert !StepHolds(CASE, steps, k);
  }

  lemma EndAt(s: State)
    requires s.env == EnvAt(2) && Told(2, s) && Complete(s) && Closed(CtxAt(2), s)
    ensures GOAL in s.eph && Possesses(ID) in s.facts && s.facts[Possesses(ID)].interval == 2
  {
    hide ReadWith, Closed;
    InTheEnd(s);
  }

  lemma ReadEarly(s: State)
    requires Told(2, s) && Complete(s)
    ensures ReadWith(s.facts[KnowsSecret(KEY)])
  {
  }

  lemma TwoAccounts()
    ensures RunsAs(EnvAt(0), R.P) != RunsAs(EnvAt(2), R.P)
  {
  }

  lemma Happens(stages: seq<State>)
    requires Parsed(CASE) && EngineRun(CASE, EvidenceSupported, Full, stages) && |stages| == 3 && GOAL in stages[2].eph
    ensures Attainable(CASE, EvidenceSupported, NoDownstreamUse(D))
  {
    hide Parsed, EngineRun, HistoryGain, Run, Violated;
    var a, moves := EngineComplete(CASE, EvidenceSupported, stages);
    assert Goal(NoDownstreamUse(D)) == GOAL;
    assert AttainedBy(CASE, EvidenceSupported, a, moves, NoDownstreamUse(D));
  }

  /** The engine reports an attack that really happens, every claim behind it is the input's, and the
      replay objects to the engine's own witness. */
  lemma TrueWitnessRejected() returns (stages: seq<State>, steps: seq<Step>)
    ensures WellFormed(CASE) && Replayable(CASE) && HistoryClaimed(CASE, EvidenceSupported) && EngineRun(CASE, EvidenceSupported, Full, stages)
    ensures |stages| == 3 && GOAL in stages[2].eph && Linear(stages[2].facts, stages[2].eph, GOAL, steps)
    ensures Attainable(CASE, EvidenceSupported, NoDownstreamUse(D)) && !Replays(CASE, EvidenceSupported, steps, GOAL)
  {
    hide WellFormed, Parsed, Attainable, Replayable, HistoryClaimed, Replays, EngineRun, Linear, EnvAt, Told, Complete, Closed, UsesHold;
    CaseParses();
    CaseIsReplayable();
    stages := RunExists(CASE, EvidenceSupported, Full);
    RunTold(stages);
    EndAt(stages[2]);
    Happens(stages);
    steps := WitnessExists(CASE, EvidenceSupported, stages, GOAL);
    Overtakes(stages, steps);
    WitnessReplays(CASE, EvidenceSupported, stages, GOAL, steps);
  }
}
