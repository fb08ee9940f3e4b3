/** A clash by the numbers: a small well-formed case on which every run of the engine misses an
    attack that the interleavings, and the reference explorer, contain. */
module ReplicaClash {
  import opened Model
  import opened Semantics
  import opened Attack
  import opened Case
  import opened Tenure
  import opened Exactness
  import opened Standstill
  import opened ClashMisses

  // Controller `C` has been given another service account, and its first Pod `P` still runs as the
  // old one. When `P` goes, its replacement gets the same UID.
  const C := Given("c")
  const P := Replica(C, 1)
  const A := Account("n", "a")
  const B := Account("n", "b")
  const CTRL := Controller("n", "c", "b", [])
  const POD := Pod("n", "p", "a", [], Some(C))
  const REPLACEMENT := ReplicaOf(CTRL, C, 1)

  /** The account `reader` may read the Secret. */
  function EnvWith(reader: Account, services: map<string, Service>, pods: map<Uid, Pod>, counters: map<Uid, int>): Env {
    Env(0, map[A := "ua", B := "ub"], pods, map[C := CTRL], map[ObjKey(None, "") := ReadBinding(reader)], map[PRIZE := 1], services, counters)
  }

  function Before(reader: Account, services: map<string, Service>): Env { EnvWith(reader, services, map[P := POD], map[]) }
  function After(reader: Account, services: map<string, Service>): Env { EnvWith(reader, services, map[P := REPLACEMENT], map[C := 1]) }

  lemma Environments(reader: Account, services: map<string, Service>)
    ensures Reconcile(Before(reader, services)) == Before(reader, services)
    ensures Reconcile(Defend(Before(reader, services), DeletePod(P))) == After(reader, services)
  {
    var e := Before(reader, services);
    assert e.pods[P].owner == Some(C);
    ReconcileIdempotent(e);
    var d := Defend(e, DeletePod(P));
    assert d.pods == map[];
    assert NextNumber(d, C) == 1;
    assert Needy(d) == {C};
    assert ReplicaUids(d) == {P};
    assert NewReplicas(d) == map[P := REPLACEMENT];
    assert NewCounters(d) == map[C := 1];
    assert d.pods + NewReplicas(d) == map[P := REPLACEMENT];
    assert d.counters + NewCounters(d) == map[C := 1];
  }

  // ---------------------------------------------------------------- the case

  const CLAIMS := [InitialFact(ClaimPod(P), Observed)]
  const ENV0 := Before(B, map[])
  const ENV1 := After(B, map[])

  /** The defender deletes the Pod; no time passes. */
  const CASE := Input(Static(ROLES, [], ["api"], 1), ENV0, map[], CLAIMS, [], [DeletePod(P)], [NoSecretRead(PRIZE)], [], [], None, 100)

  lemma CaseIsWellFormed()
    ensures WellFormed(CASE)
  {
  }

  lemma Bases()
    ensures Base(CASE, 0) == ENV0 && Base(CASE, 1) == ENV1
  {
    hide Reconcile, Defend;
    Environments(B, map[]);
    assert CASE.actions[0] == DeletePod(P);
  }

  lemma ClashAt()
    ensures Clashes(CASE.st, ENV0, ENV1, P)
  {
    assert "api" in Audiences(CASE.st, ENV1.pods[P]);
  }

  /** The replacement runs as another account while the first Pod's token is still fresh. */
  lemma CaseClashes()
    ensures WellFormed(CASE) && !ClashFree(CASE, EvidenceSupported)
  {
    hide Reconcile, WellFormed, Clashes, Base;
    CaseIsWellFormed();
    Bases();
    ClashAt();
    assert Era(CASE, EvidenceSupported, 0) == ENV0 && Era(CASE, EvidenceSupported, 1) == ENV1;
    assert !HistoryRuns(CASE, EvidenceSupported, Full);
  }

  const TURN := Turn(P, POD, B, 1)

  lemma CaseTurns()
    ensures Turns(CASE, EvidenceSupported, 0, TURN) && Claims(CASE, EvidenceSupported, 0, TURN, CLAIMS, [])
  {
    hide Base, Clashes;
    Bases();
    ClashAt();
  }

  lemma CaseIsMade()
    ensures CaseOf(CASE, TURN, CLAIMS, []) == CASE
  {
    assert CASE.actions[1..] == [] && FreshName(CASE.actions) == "";
    assert CASE.actions[..1] == CASE.actions;
  }

  /** Replacing one Pod by another account's Pod of the same UID without any time passing leaves
      the engine with the old Pod's token: it misses a Secret read that really happens. */
  lemma StaleTokenHidesAttack()
    ensures WellFormed(CASE) && !ClashFree(CASE, EvidenceSupported) && Missed(CASE, EvidenceSupported, NoSecretRead(PRIZE))
  {
    hide WellFormed, ClashFree, EngineRun, Attainable, Turns, Claims, CaseOf;
    CaseClashes();
    CaseTurns();
    CaseIsMade();
    CaseIsMissed(CASE, EvidenceSupported, 0, TURN, CLAIMS, []);
  }
}
