/** What happens when an input credential has the id of a projected token, which the parser allows:
    the engine keeps one credential per id, and misses what the other one could do. */
module ForeignIds {
  import opened Model
  import opened Semantics
  import opened Attack
  import opened Rules
  import opened Fixpoint
  import opened Case
  import opened Exactness
  import opened Termination
  import opened Standstill

  const P := Given("p")
  const A := Account("n", "a")
  const B := Account("n", "b")
  const ID := Projected(P, "api")
  const READ := NoSecretRead(PRIZE)

  function EnvOf(pod: Account): Env {
    Env(0, map[A := "ua", B := "ub"], map[P := Pod("n", "p", pod.name, [], None)], map[],
        map[ObjKey(None, "") := ReadBinding(B)], map[PRIZE := 1], map[], map[])
  }

  function Foreign(user: Account, expires: Option<int>): Cred { Cred(ID, "sa_token", SaUser(user), None, None, "api", expires) }

  /** The attacker controls the Pod and holds the credential that has its token's id. */
  function CaseOf(pod: Account, user: Account, expires: Option<int>): Input {
    Input(Static(ROLES, [], ["api"], 1), EnvOf(pod), map[ID := Foreign(user, expires)],
          [InitialFact(ClaimCred(ID), Observed), InitialFact(ClaimPod(P), Observed)], [], [], [READ], [], [], None, 100)
  }

  // The Pod's own token is the useful one, but the credential outlives it.
  const KEPT := CaseOf(B, A, Some(100))
  // The credential is the useful one, but the Pod's token replaces it.
  const REPLACED := CaseOf(A, B, None)

  lemma CaseParses(pod: Account, user: Account, expires: Option<int>)
    requires pod == A || pod == B
    ensures var v := CaseOf(pod, user, expires);
      Parsed(v) && NothingReserved(v) && !OwnIds(v) && OneHistory(v) && ClashFree(v, EvidenceSupported)
  {
    hide Reconcile;
    assert ID in CaseOf(pod, user, expires).credentials;
  }

  const TABLE := map[Possesses(ID) := EVIDENCE, ControlsPod(P) := EVIDENCE]

  lemma FactsAre(pod: Account, user: Account, expires: Option<int>)
    ensures InitialFacts(CaseOf(pod, user, expires), EvidenceSupported, Full) == {Possesses(ID), ControlsPod(P)}
  {
    var fs := CaseOf(pod, user, expires).facts;
    assert fs[0] in fs && fs[1] in fs;
    assert Kept(fs[0], EvidenceSupported, Full) && Kept(fs[1], EvidenceSupported, Full);
  }

  lemma StartsAt(pod: Account, user: Account, expires: Option<int>)
    ensures var v := CaseOf(pod, user, expires);
      && InitialState(v, EvidenceSupported, Full) == State(v.env, map[ID := Foreign(user, expires)], TABLE, map[])
      && Reconcile(v.env) == v.env && !HistoryRuns(v, EvidenceSupported, Full)
  {
    hide InitialFacts, Reconcile;
    var v := CaseOf(pod, user, expires);
    NothingToServe(v.env);
    FactsAre(pod, user, expires);
    assert InitialState(v, EvidenceSupported, Full).facts == TABLE;
    assert InitialState(v, EvidenceSupported, Full).creds == map[ID := Foreign(user, expires)];
  }

  lemma NothingToServe(e: Env)
    requires e.ctrls == map[]
    ensures Reconcile(e) == e
  {
    ReconcileIdempotent(e);
  }

  function StartOf(v: Input): State { State(v.env, v.credentials, TABLE, map[]) }

  lemma OnlyStart(pod: Account, user: Account, expires: Option<int>, start: State)
    ensures var v := CaseOf(pod, user, expires); StartsMain(v, EvidenceSupported, Full, start) <==> start == StartOf(v)
  {
    hide Reconcile, HistoryRuns, InitialState;
    StartsAt(pod, user, expires);
  }

  lemma Held(pod: Account, user: Account, expires: Option<int>)
    ensures var v := CaseOf(pod, user, expires);
      HistoryGain(v, EvidenceSupported, Att({Foreign(user, expires)}, {P}, {}, {}))
  {
    hide HistoryRuns, Reconcile, InitialState;
    StartsAt(pod, user, expires);
    var v := CaseOf(pod, user, expires);
    var s := InitialState(v, EvidenceSupported, Full);
    assert View(s).att == Att({Foreign(user, expires)}, {P}, {}, {}) by {
      assert ID in s.creds && ControlsPod(P) in s.facts;
      assert View(s).att.creds == {Foreign(user, expires)};
      assert View(s).att.pods == {P};
      assert View(s).att.ctrls == {};
      assert View(s).att.know == {};
    }
  }

  // ---------------------------------------------------------------- the token never taken

  lemma KeptMisses(stages: seq<State>)
    requires EngineRun(KEPT, EvidenceSupported, Full, stages)
    ensures !Reported(KEPT, stages, READ)
  {
    hide Saturates, StartsMain;
    var start :| StartsMain(KEPT, EvidenceSupported, Full, start) && Ladder(KEPT, Now, start, stages);
    OnlyStart(B, A, Some(100), start);
    var ctx := Ctx(KEPT.st, Now, 0);
    assert ControlsPod(P) in start.facts;
    assert TokenCurrent(ctx, start, P, "api");
    SaturationStuck(ctx, P, A, B, start, stages[0]);
  }

  lemma KeptAttack()
    ensures Attainable(KEPT, EvidenceSupported, READ)
  {
    hide HistoryGain, Reconcile, CanRead, HistoryRuns, InitialState;
    Held(B, A, Some(100));
    StartsAt(B, A, Some(100));
    var a, e := Att({Foreign(A, Some(100))}, {P}, {}, {}), KEPT.env;
    var c := Token(KEPT.st, e, P, "api");
    TokenUsable(KEPT.st, e, P, "api");
    ReaderReads(KEPT.st, e.bindings, ObjKey(None, ""), B, PRIZE);
    assert "api" in Audiences(KEPT.st, e.pods[P]);
    var s := Stage(0, World(e, a));
    var after := World(e, a.(creds := a.creds + {c}));
    assert Run(KEPT.st, Now, [], s, []) == Some(s);
    RunExtend(KEPT.st, Now, [], s, [], Attacker(Obtain(P, "api")));
    assert [] + [Attacker(Obtain(P, "api"))] == [Attacker(Obtain(P, "api"))];
    assert c in after.att.creds;
    assert AttainedBy(KEPT, EvidenceSupported, a, [Attacker(Obtain(P, "api"))], READ);
  }

  // ---------------------------------------------------------------- the credential overwritten

  const TAKEN := FireToken(P, "api")

  function CtxNow(): Ctx { Ctx(REPLACED.st, Now, 0) }

  lemma TakenReady()
    ensures Ready(CtxNow(), StartOf(REPLACED), TAKEN)
  {
    assert ControlsPod(P) in TABLE && "api" in Audiences(REPLACED.st, REPLACED.env.pods[P]);
  }

  /** The one saturation of the run that takes the token first, as the engine does. */
  function After(): State
    requires Ready(CtxNow(), StartOf(REPLACED), TAKEN)
  {
    Fire(CtxNow(), StartOf(REPLACED), TAKEN)
  }

  lemma AfterStuck()
    requires Ready(CtxNow(), StartOf(REPLACED), TAKEN)
    ensures Stuck(REPLACED.st, P, A, After()) && Saturates(CtxNow(), StartOf(REPLACED), After()) && After().env == REPLACED.env
  {
    var t := After();
    assert t.creds == map[ID := Token(REPLACED.st, REPLACED.env, P, "api")];
    assert ControlsPod(P) in t.facts;
    assert forall aud :: !Ready(CtxNow(), t, FireToken(P, aud));
    forall f
      ensures !Ready(CtxNow(), t, f)
    {
      if Ready(CtxNow(), t, f) { OnlyTokens(CtxNow(), P, A, B, t, f); }
    }
    assert [TAKEN][..0] == [] && FireAll(CtxNow(), StartOf(REPLACED), []) == Some(StartOf(REPLACED));
    assert FireAll(CtxNow(), StartOf(REPLACED), [TAKEN]) == Some(t);
  }

  lemma ReplacedAttack()
    ensures Attainable(REPLACED, EvidenceSupported, READ)
  {
    hide HistoryGain, Reconcile, CanRead, HistoryRuns, InitialState;
    Held(A, B, None);
    StartsAt(A, B, None);
    var a, e := Att({Foreign(B, None)}, {P}, {}, {}), REPLACED.env;
    ReaderReads(REPLACED.st, e.bindings, ObjKey(None, ""), B, PRIZE);
    assert CanUse(REPLACED.st, e, Foreign(B, None), Now);
    assert Foreign(B, None) in a.creds;
    assert Run(REPLACED.st, Now, [], Stage(0, World(e, a)), []) == Some(Stage(0, World(e, a)));
    assert AttainedBy(REPLACED, EvidenceSupported, a, [], READ);
  }

  /** Either way the engine misses a Secret read. */
  lemma SharedIdHidesAttack()
    ensures Parsed(KEPT) && NothingReserved(KEPT) && OneHistory(KEPT) && ClashFree(KEPT, EvidenceSupported) && !OwnIds(KEPT)
    ensures Missed(KEPT, EvidenceSupported, READ)
  {
    hide Parsed, NothingReserved, OneHistory, ClashFree, OwnIds, EngineRun, Attainable;
    CaseParses(B, A, Some(100));
    KeptAttack();
    var run := RunExists(KEPT, EvidenceSupported, Full);
    forall stages | EngineRun(KEPT, EvidenceSupported, Full, stages)
      ensures !Reported(KEPT, stages, READ)
    {
      KeptMisses(stages);
    }
  }

  lemma OverwrittenIdHidesAttack() returns (stages: seq<State>)
    ensures Parsed(REPLACED) && NothingReserved(REPLACED) && OneHistory(REPLACED) && ClashFree(REPLACED, EvidenceSupported) && !OwnIds(REPLACED)
    ensures Attainable(REPLACED, EvidenceSupported, READ) && EngineRun(REPLACED, EvidenceSupported, Full, stages) && !Reported(REPLACED, stages, READ)
  {
    hide Parsed, NothingReserved, OneHistory, ClashFree, OwnIds, Attainable, Saturates, StartsMain, Fire;
    CaseParses(A, B, None);
    ReplacedAttack();
    TakenReady();
    AfterStuck();
    OnlyStart(A, B, None, StartOf(REPLACED));
    stages := [After()];
    assert Ladder(REPLACED, Now, StartOf(REPLACED), stages);
  }
}
