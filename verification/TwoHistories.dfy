/** What happens when two historical claims give one UID to different accounts, which the parser
    allows: the engine keeps the first claim, and misses an attack of the second history. */
module TwoHistories {
  import opened Model
  import opened Semantics
  import opened Attack
  import opened Rules
  import opened Case
  import opened Exactness
  import opened Termination
  import opened Standstill

  const U := Given("u")
  const A := Account("n", "a")
  const B := Account("n", "b")
  const D := "d"

  const ENV := Env(0, map[A := "ua", B := "ub"], map[], map[], map[ObjKey(None, "") := ReadBinding(B)], map[PRIZE := 1],
                   map[D := Service(PRIZE, 1, 0, {})], map[])

  /** The Pod is gone, nobody acts, and the service accepts what the Secret holds. */
  function CaseOf(claims: seq<Historical>): Input {
    Input(Static(ROLES, [], ["api"], 1), ENV, map[], [], claims, [], [NoDownstreamUse(D)], [], [], None, 100)
  }

  const CASE := CaseOf([Historical(U, A, Observed), Historical(U, B, Observed)])

  lemma CaseParses()
    ensures Parsed(CASE) && NothingReserved(CASE) && OwnIds(CASE) && !OneHistory(CASE)
  {
    assert CASE.historical[0] in CASE.historical && CASE.historical[1] in CASE.historical;
  }

  lemma SameToday()
    ensures Reconcile(ENV) == ENV && Base(CASE, 0) == ENV
  {
    ReconcileIdempotent(ENV);
  }

  lemma CaseClashFree(claims: seq<Historical>)
    ensures ClashFree(CaseOf(claims), ConservativePossible)
  {
    hide Reconcile, HistoryEnv, HistoryRuns;
    SameToday();
  }

  /** Every claim is about the one Pod. */
  predicate AboutOne(claims: seq<Historical>) {
    claims != [] && forall h :: h in claims ==> h.uid == U && h.status.Observed?
  }

  lemma HistoryOfOne(claims: seq<Historical>)
    requires AboutOne(claims)
    ensures var v := CaseOf(claims);
      && HistoricalPods(v, ConservativePossible, Full) == {U} && HistoryRuns(v, ConservativePossible, Full)
      && HistoryStart(v, ConservativePossible, Full) == State(HistoryEnv(v, ConservativePossible, Full), map[], map[ControlsPod(U) := EVIDENCE], map[])
      && HistoryWorld(v, ConservativePossible).att == Att({}, {U}, {}, {})
  {
    var v := CaseOf(claims);
    assert claims[0] in claims && KeptHistorical(claims[0], ConservativePossible, Full);
    assert HistoricalPods(v, ConservativePossible, Full) == {U};
    var s := HistoryStart(v, ConservativePossible, Full);
    assert InitialFacts(v, ConservativePossible, Full) == {};
    assert HistoricalFacts(v, ConservativePossible, Full) == {ControlsPod(U)};
    assert s.creds == map[] && s.facts == map[ControlsPod(U) := EVIDENCE];
    assert ControlsPod(U) in s.facts;
  }

  lemma FirstClaimHolds()
    ensures HistoryEnv(CASE, ConservativePossible, Full) == ENV.(pods := map[U := HistoricalPod(U, A)])
  {
    var claims := CASE.historical;
    assert claims[0] in claims && claims[0].uid == U && KeptHistorical(claims[0], ConservativePossible, Full);
    assert KeptUids(claims, ConservativePossible, Full) == {U};
    assert FirstClaim(claims, ConservativePossible, Full, U) == A;
    assert FirstRows(CASE, ConservativePossible, Full) == map[U := A];
  }

  lemma FirstClaimWins()
    ensures var s := HistoryStart(CASE, ConservativePossible, Full);
      Stuck(CASE.st, U, A, s) && OnlyFor(s.env.bindings, B) && Harmless(Ctx(CASE.st, Window(None), -1), U, A, s)
  {
    hide HistoricalPods, HistoryStart, HistoryEnv, HistoryRuns;
    HistoryOfOne(CASE.historical);
    FirstClaimHolds();
  }

  lemma StartsStuck(start: State)
    requires StartsMain(CASE, ConservativePossible, Full, start)
    ensures Stuck(CASE.st, U, A, start) && start.env == ENV
  {
    hide HistoryRuns, Saturates, Reconcile, HistoryStart, HistoricalPods, Stuck, Harmless, OnlyFor;
    HistoryOfOne(CASE.historical);
    FirstClaimWins();
    SameToday();
    var ctx, first := Ctx(CASE.st, Window(None), -1), HistoryStart(CASE, ConservativePossible, Full);
    var h :| Saturates(ctx, first, h) && start == MainStart(CASE, h);
    SaturationStuck(ctx, U, A, B, first, h);
    SameTables(CASE.st, U, A, h, start);
  }

  lemma EngineMisses(stages: seq<State>)
    requires EngineRun(CASE, ConservativePossible, Full, stages)
    ensures !Reported(CASE, stages, NoDownstreamUse(D))
  {
    hide StartsMain, Saturates, Stuck;
    var start :| StartsMain(CASE, ConservativePossible, Full, start) && Ladder(CASE, Now, start, stages);
    StartsStuck(start);
    SaturationStuck(Ctx(CASE.st, Now, 0), U, A, B, start, stages[0]);
    NoGoals(stages[0]);
  }

  lemma NoGoals(s: State)
    requires Stuck(CASE.st, U, A, s)
    ensures s.eph == map[]
  {
  }

  lemma SecondRow(claims: seq<Historical>)
    requires AboutOne(claims) && Historical(U, B, Observed) in claims
    ensures Rows(CaseOf(claims), ConservativePossible, map[U := B])
    ensures HistoryWorldOf(CaseOf(claims), ConservativePossible, map[U := B]) == World(ENV.(pods := map[U := HistoricalPod(U, B)]), Att({}, {U}, {}, {}))
  {
    hide HistoryStart, HistoryRuns, Reconcile, HistoricalPods;
    HistoryOfOne(claims);
  }

  /** With account `B` the Pod's token reads the Secret within the window. */
  lemma AttackWorks(claims: seq<Historical>)
    requires AboutOne(claims) && Historical(U, B, Observed) in claims
    ensures Attainable(CaseOf(claims), ConservativePossible, NoDownstreamUse(D))
  {
    hide HistoryStart, HistoryRuns, Reconcile, Run, RunActs, CanRead, HistoricalPods, HistoryWorldOf, Rows, Violated, AboutOne;
    var v := CaseOf(claims);
    HistoryOfOne(claims);
    SecondRow(claims);
    SameToday();
    var w := HistoryWorldOf(v, ConservativePossible, map[U := B]);
    ReaderReads(v.st, w.env.bindings, ObjKey(None, ""), B, PRIZE);
    var acts, after := TakeAndRead(v.st, None, w, U, "api");
    assert Reaches(v.st, Window(None), w, after);
    assert HistoryReach(v, ConservativePossible, after);
    Knows();
    assert AttainedBy(v, ConservativePossible, Att({}, {}, {}, {Known(PRIZE, 1)}), [], NoDownstreamUse(D));
  }

  lemma Knows()
    ensures var s := Stage(0, World(ENV, Att({}, {}, {}, {Known(PRIZE, 1)})));
      Run(CASE.st, Now, [], s, []) == Some(s) && Violated(CASE.st, Now, s.world, NoDownstreamUse(D))
  {
    assert Known(PRIZE, 1) in {Known(PRIZE, 1)};
  }

  /** The engine misses what was possible if the second claim is right. */
  lemma SecondClaimHidden()
    ensures Parsed(CASE) && NothingReserved(CASE) && OwnIds(CASE) && !OneHistory(CASE)
    ensures ClashFree(CASE, ConservativePossible) && Missed(CASE, ConservativePossible, NoDownstreamUse(D))
  {
    hide Parsed, NothingReserved, OwnIds, OneHistory, ClashFree, EngineRun, Attainable;
    CaseParses();
    CaseClashFree(CASE.historical);
    AttackWorks(CASE.historical);
    var run := RunExists(CASE, ConservativePossible, Full);
    forall stages | EngineRun(CASE, ConservativePossible, Full, stages)
      ensures !Reported(CASE, stages, NoDownstreamUse(D))
    {
      EngineMisses(stages);
    }
  }
}
