/** Provenance over a complete engine run: history phase, every interval, every defender action. */
module Story {
  import opened Model
  import opened Semantics
  import opened Attack
  import opened Rules
  import opened Shape
  import opened Fixpoint
  import opened Case
  import opened Interleavings
  import opened Provenance

  /** What may be recorded as evidence; historical Pods only when the view has a history phase. */
  function EvidenceFacts(inp: Input, view: Perspective): set<Fact> {
    InitialFacts(inp, view, Full) + if view.ConservativePossible? then HistoricalFacts(inp, view, Full) else {}
  }

  function SceneOf(inp: Input, view: Perspective, past: map<int, Env>): Scene {
    Scene(inp.st, inp.historyStart, EvidenceFacts(inp, view), inp.credentials, past)
  }

  function PastOf(first: map<int, Env>, stages: seq<State>, k: nat): map<int, Env>
    requires k <= |stages|
  {
    first + map i | 0 <= i < k :: stages[i].env
  }

  ghost predicate Told(sc: Scene, now: int, s: State, rank: map<Fact, nat>) {
    FactsAccounted(sc, now, s) && GoalsAccounted(sc, now, s) && Ranked(s.facts, rank) && InputsKept(sc, s) && TokensShaped(s)
  }

  lemma SceneValid(inp: Input, view: Perspective, past: map<int, Env>)
    requires WellFormed(inp)
    ensures SceneOf(inp, view, past).Valid()
  {
    InitialGood(inp, view, Full);
    forall f | f in InitialFacts(inp, view, Full)
      ensures f.Possesses? ==> f.cred.InputCred?
    {
      var g :| g in inp.facts && Kept(g, view, Full) && f == FactOf(g.claim);
      assert ClaimParses(inp, g.claim);
    }
  }

  /** A state all of whose facts are evidence. */
  lemma EvidenceTold(inp: Input, view: Perspective, now: int, s: State)
    requires forall f :: f in s.facts ==> s.facts[f] == EVIDENCE && f in SceneOf(inp, view, map[]).evidence
    requires s.eph == map[] && OwnIds(inp) && forall id :: id in s.creds ==> id in inp.credentials && s.creds[id] == inp.credentials[id]
    ensures Told(SceneOf(inp, view, map[]), now, s, map f | f in s.facts :: 0)
  {
    hide Explained;
  }

  lemma TablesTold(inp: Input, view: Perspective)
    requires OwnIds(inp)
    ensures view.ConservativePossible? ==> Told(SceneOf(inp, view, map[]), -1, HistoryStart(inp, view, Full), map f | f in HistoryStart(inp, view, Full).facts :: 0)
    ensures Told(SceneOf(inp, view, map[]), 0, MainStart(inp, InitialState(inp, view, Full)), map f | f in InitialState(inp, view, Full).facts :: 0)
  {
    hide InitialFacts, HistoricalFacts, HistoryEnv, Reconcile;
    if view.ConservativePossible? { EvidenceTold(inp, view, -1, HistoryStart(inp, view, Full)); }
    EvidenceTold(inp, view, 0, MainStart(inp, InitialState(inp, view, Full)));
  }

  /** When an interval ends its environment becomes past; nothing recorded is lost. */
  lemma IntervalEnds(sc: Scene, now: int, s: State, t: State, rank: map<Fact, nat>)
    requires Told(sc, now, s, rank) && now !in sc.past && now + 1 !in sc.past
    requires t.facts == s.facts && t.creds == s.creds && t.eph == map[]
    ensures Told(sc.(past := sc.past[now := s.env]), now + 1, t, rank)
  {
    hide Explained, Ranked;
    var after := sc.(past := sc.past[now := s.env]);
    forall f | f in t.facts
      ensures Accounted(after, now + 1, t, f, t.facts[f])
    {
      assert Accounted(sc, now, s, f, s.facts[f]);
    }
  }

  lemma SaturationTold(inp: Input, view: Perspective, past: map<int, Env>, ctx: Ctx, base: Env, s: State, t: State, rank: map<Fact, nat>)
    returns (after: map<Fact, nat>)
    requires WellFormed(inp) && ctx == Ctx(inp.st, if ctx.interval == -1 then Window(inp.historyStart) else Now, ctx.interval)
    requires Good(ctx.interval, s) && EnvInv(base, s.env) && RuleFits(ctx, s.env)
    requires Told(SceneOf(inp, view, past), ctx.interval, s, rank) && Saturates(ctx, s, t)
    ensures Told(SceneOf(inp, view, past), ctx.interval, t, after)
  {
    hide Good, EnvInv, FactsAccounted, GoalsAccounted, InputsKept, TokensShaped, Ranked, InitialFacts, HistoricalFacts, Closed;
    SceneValid(inp, view, past);
    var fs :| FireAll(ctx, s, fs) == Some(t);
    after := FiringsAccounted(SceneOf(inp, view, past), ctx, base, s, fs, rank);
  }

  /** How a run begins: `first` is the end of the history phase, if there was one. */
  ghost predicate Begins(inp: Input, view: Perspective, start: State, first: map<int, Env>)
    requires inp.st.api != []
  {
    if HistoryRuns(inp, view, Full) then
      exists h :: Saturates(Ctx(inp.st, Window(inp.historyStart), -1), HistoryStart(inp, view, Full), h)
        && start == MainStart(inp, h) && first == map[-1 := h.env]
    else start == MainStart(inp, InitialState(inp, view, Full)) && first == map[]
  }

  lemma StartTold(inp: Input, view: Perspective, start: State) returns (first: map<int, Env>, rank: map<Fact, nat>)
    requires WellFormed(inp) && StartsMain(inp, view, Full, start)
    ensures Begins(inp, view, start, first) && Told(SceneOf(inp, view, first), 0, start, rank)
  {
    hide Good, EnvInv, Told, Saturates, HistoryStart, InitialState, Reconcile, HistoryEnv;
    TablesTold(inp, view);
    if HistoryRuns(inp, view, Full) {
      var ctx := Ctx(inp.st, Window(inp.historyStart), -1);
      var h :| Saturates(ctx, HistoryStart(inp, view, Full), h) && start == MainStart(inp, h);
      HistoryGood(inp, view, Full);
      HistoryFits(inp, view);
      rank := map f | f in HistoryStart(inp, view, Full).facts :: 0;
      rank := SaturationTold(inp, view, map[], ctx, HistoryEnv(inp, view, Full), HistoryStart(inp, view, Full), h, rank);
      first := map[-1 := h.env];
      IntervalEnds(SceneOf(inp, view, map[]), -1, h, start, rank);
    } else {
      first := map[];
      rank := map f | f in InitialState(inp, view, Full).facts :: 0;
    }
  }

  lemma HistoryFits(inp: Input, view: Perspective)
    requires WellFormed(inp)
    ensures RuleFits(Ctx(inp.st, Window(inp.historyStart), -1), HistoryStart(inp, view, Full).env)
    ensures HistoryStart(inp, view, Full).env == HistoryEnv(inp, view, Full)
  {
  }

  lemma FirstStageTold(inp: Input, view: Perspective, start: State, stages: seq<State>, first: map<int, Env>, rank0: map<Fact, nat>)
    returns (rank: map<Fact, nat>)
    requires WellFormed(inp) && StartsMain(inp, view, Full, start) && Ladder(inp, Now, start, stages)
    requires Told(SceneOf(inp, view, first), 0, start, rank0)
    ensures Told(SceneOf(inp, view, PastOf(first, stages, 0)), 0, stages[0], rank)
  {
    hide Good, EnvInv, Told, Saturates, Reconcile, Defend, StartsMain, Plain;
    NonEmptyApi(inp);
    StartGood(inp, view, Full, start);
    assert PastOf(first, stages, 0) == first;
    MainEnvGood(inp);
    rank := SaturationTold(inp, view, first, Ctx(inp.st, Now, 0), Base(inp, 0), start, stages[0], rank0);
  }

  lemma NextStageTold(inp: Input, view: Perspective, start: State, stages: seq<State>, first: map<int, Env>, rank0: map<Fact, nat>, k: nat)
    returns (rank: map<Fact, nat>)
    requires WellFormed(inp) && Ladder(inp, Now, start, stages) && k < |inp.actions| && StageGood(inp, stages[k], k)
    requires first.Keys <= {-1} && Told(SceneOf(inp, view, PastOf(first, stages, k)), k, stages[k], rank0)
    ensures Told(SceneOf(inp, view, PastOf(first, stages, k + 1)), k + 1, stages[k + 1], rank)
  {
    hide Good, EnvInv, Told, Saturates, Plain, StageGood, PastOf, NextState, RuleFits, SceneOf;
    var s, a := stages[k], inp.actions[k];
    NextGoodHere(inp, s, k);
    NextTables(inp, s, a);
    OneMorePast(inp, view, first, stages, k, NextState(s, a), rank0);
    NowFits(inp, k + 1, NextState(s, a));
    rank := SaturationTold(inp, view, PastOf(first, stages, k + 1), Ctx(inp.st, Now, k + 1), Base(inp, k + 1), NextState(s, a), stages[k + 1], rank0);
  }

  lemma NowFits(inp: Input, k: nat, s: State)
    ensures RuleFits(Ctx(inp.st, Now, k), s.env)
  {
  }

  lemma OneMorePast(inp: Input, view: Perspective, first: map<int, Env>, stages: seq<State>, k: nat, t: State, rank: map<Fact, nat>)
    requires k + 1 < |stages| && first.Keys <= {-1} && Told(SceneOf(inp, view, PastOf(first, stages, k)), k, stages[k], rank)
    requires t.facts == stages[k].facts && t.creds == stages[k].creds && t.eph == map[]
    ensures Told(SceneOf(inp, view, PastOf(first, stages, k + 1)), k + 1, t, rank)
  {
    hide Told, InitialFacts, HistoricalFacts;
    var past := PastOf(first, stages, k);
    IntervalEnds(SceneOf(inp, view, past), k, stages[k], t, rank);
    assert past[k := stages[k].env] == PastOf(first, stages, k + 1);
  }

  lemma NextTables(inp: Input, s: State, a: Action)
    ensures var t := NextState(s, a); t.facts == s.facts && t.creds == s.creds && t.eph == map[]
  {
  }

  lemma BeginsKeys(inp: Input, view: Perspective, start: State, first: map<int, Env>)
    requires inp.st.api != [] && Begins(inp, view, start, first)
    ensures first.Keys <= {-1}
  {
    hide Saturates, HistoryRuns;
  }

  lemma {:induction false} StageTold(inp: Input, view: Perspective, start: State, stages: seq<State>, first: map<int, Env>, rank0: map<Fact, nat>, k: nat)
    returns (rank: map<Fact, nat>)
    requires WellFormed(inp) && StartsMain(inp, view, Full, start) && Ladder(inp, Now, start, stages) && k <= |inp.actions|
    requires Begins(inp, view, start, first) && Told(SceneOf(inp, view, first), 0, start, rank0)
    ensures Told(SceneOf(inp, view, PastOf(first, stages, k)), k, stages[k], rank)
  {
    hide Told, StartsMain, Ladder, Plain, Begins, StageGood, SceneOf, Good, PastOf;
    NonEmptyApi(inp);
    LadderLength(inp, Now, start, stages);
    if k == 0 {
      rank := FirstStageTold(inp, view, start, stages, first, rank0);
    } else {
      rank := StageTold(inp, view, start, stages, first, rank0, k - 1);
      StartGood(inp, view, Full, start);
      LadderGood(inp, Now, start, stages, k - 1);
      BeginsKeys(inp, view, start, first);
      rank := NextStageTold(inp, view, start, stages, first, rank, k - 1);
    }
  }
}
