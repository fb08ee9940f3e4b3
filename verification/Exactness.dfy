/** The engine's final goals are exactly the objectives some interleaving violates, including
    what the possible-history phase contributes. */
module Exactness {
  import opened Model
  import opened Semantics
  import opened Attack
  import opened Rules
  import opened Shape
  import opened Cover
  import opened Fixpoint
  import opened Legality
  import opened Case
  import opened Interleavings
  import opened Tenure

  // ---------------------------------------------------------------- what history may contribute

  /** One account for each historical UID, out of those claimed for it. */
  ghost predicate Rows(inp: Input, view: Perspective, rows: map<Uid, Account>) {
    && rows.Keys == HistoricalPods(inp, view, Full)
    && forall u :: u in rows ==> ClaimKept(inp.historical, view, u, rows[u])
  }

  ghost predicate ClaimKept(hs: seq<Historical>, view: Perspective, u: Uid, a: Account) {
    exists h :: h in hs && KeptHistorical(h, view, Full) && h.uid == u && h.account == a
  }

  function HistoryWorldOf(inp: Input, view: Perspective, rows: map<Uid, Account>): World {
    World(WithRows(inp.env, rows), View(HistoryStart(inp, view, Full)).att)
  }

  /** The start of the history the engine explores. */
  function HistoryWorld(inp: Input, view: Perspective): World { View(HistoryStart(inp, view, Full)) }

  ghost predicate HistoryReach(inp: Input, view: Perspective, w: World)
    requires inp.st.api != []
  {
    exists rows :: Rows(inp, view, rows) && Reaches(inp.st, Window(inp.historyStart), HistoryWorldOf(inp, view, rows), w)
  }

  /** Everything in `a` was gained in some possible history; different items may come from
      different histories. Without a history phase `a` is just the initial evidence. */
  ghost predicate HistoryGain(inp: Input, view: Perspective, a: Att)
    requires inp.st.api != []
  {
    if HistoryRuns(inp, view, Full) then
      && (forall c :: c in a.creds ==> exists w :: HistoryReach(inp, view, w) && c in w.att.creds)
      && (forall u :: u in a.pods ==> exists w :: HistoryReach(inp, view, w) && u in w.att.pods)
      && (forall c :: c in a.ctrls ==> exists w :: HistoryReach(inp, view, w) && c in w.att.ctrls)
      && (forall k :: k in a.know ==> exists w :: HistoryReach(inp, view, w) && k in w.att.know)
    else a == View(InitialState(inp, view, Full)).att
  }

  lemma {:induction false} FirstClaimKept(hs: seq<Historical>, view: Perspective, u: Uid)
    requires exists h :: h in hs && KeptHistorical(h, view, Full) && h.uid == u
    ensures ClaimKept(hs, view, u, FirstClaim(hs, view, Full, u))
  {
    if hs[0].uid != u || !KeptHistorical(hs[0], view, Full) {
      FirstClaimKept(hs[1..], view, u);
      var h :| h in hs[1..] && KeptHistorical(h, view, Full) && h.uid == u && h.account == FirstClaim(hs[1..], view, Full, u);
      assert h in hs;
    } else {
      assert hs[0] in hs;
    }
  }

  lemma FirstRowsKept(inp: Input, view: Perspective)
    ensures Rows(inp, view, FirstRows(inp, view, Full)) && HistoryWorldOf(inp, view, FirstRows(inp, view, Full)) == HistoryWorld(inp, view)
  {
    var rows := FirstRows(inp, view, Full);
    forall u | u in rows
      ensures ClaimKept(inp.historical, view, u, rows[u])
    {
      FirstClaimKept(inp.historical, view, u);
    }
  }

  /** With one claim per UID there is one history to explore. */
  lemma OnlyRows(inp: Input, view: Perspective, rows: map<Uid, Account>)
    requires OneHistory(inp) && Rows(inp, view, rows)
    ensures rows == FirstRows(inp, view, Full)
  {
    FirstRowsKept(inp, view);
    var first := FirstRows(inp, view, Full);
    forall u | u in rows
      ensures rows[u] == first[u]
    {
      assert ClaimKept(inp.historical, view, u, rows[u]) && ClaimKept(inp.historical, view, u, first[u]);
    }
  }

  lemma OneHistoryReach(inp: Input, view: Perspective, w: World)
    requires OneHistory(inp) && inp.st.api != []
    ensures HistoryReach(inp, view, w) <==> Reaches(inp.st, Window(inp.historyStart), HistoryWorld(inp, view), w)
  {
    hide FirstRows, HistoryWorldOf, HistoryWorld, Reaches;
    FirstRowsKept(inp, view);
    if HistoryReach(inp, view, w) {
      var rows :| Rows(inp, view, rows) && Reaches(inp.st, Window(inp.historyStart), HistoryWorldOf(inp, view, rows), w);
      OnlyRows(inp, view, rows);
    }
  }

  lemma ReachByActs(inp: Input, view: Perspective, acts: seq<Act>, w: World)
    requires inp.st.api != [] && RunActs(inp.st, Window(inp.historyStart), HistoryWorld(inp, view), acts) == Some(w)
    ensures HistoryReach(inp, view, w)
  {
    hide FirstRows, HistoryWorldOf, HistoryWorld, RunActs;
    FirstRowsKept(inp, view);
    assert Reaches(inp.st, Window(inp.historyStart), HistoryWorld(inp, view), w);
  }

  lemma HistoryActs(inp: Input, view: Perspective, w: World) returns (acts: seq<Act>)
    requires OneHistory(inp) && inp.st.api != [] && HistoryReach(inp, view, w)
    ensures RunActs(inp.st, Window(inp.historyStart), HistoryWorld(inp, view), acts) == Some(w)
  {
    hide HistoryReach, HistoryWorld, RunActs;
    OneHistoryReach(inp, view, w);
    acts :| RunActs(inp.st, Window(inp.historyStart), HistoryWorld(inp, view), acts) == Some(w);
  }

  lemma CoversSelf(st: Static, w: World)
    requires forall u :: u in w.env.pods && Standalone(u) ==> u in w.att.pods
    requires forall c :: c in w.env.ctrls && CreatedDeploy(c) ==> c in w.att.ctrls
    ensures Covers(st, w, w)
  {
    WithinCovers(st, w.att, w.att);
  }

  /** In one environment no token is ever taken twice. */
  lemma HistoryTokens(inp: Input, view: Perspective, mode: Mode, h: State)
    requires WellFormed(inp) && Saturates(Ctx(inp.st, HistoryRule(inp, mode), -1), HistoryStart(inp, view, mode), h)
    ensures Retained(inp.st, HistoryStart(inp, view, mode), h)
    ensures forall id :: id in h.creds && id.Projected? ==> Minted(inp.st, h.env, id, h.creds[id])
    ensures forall id :: id in HistoryStart(inp, view, mode).creds ==> id in h.creds && h.creds[id] == HistoryStart(inp, view, mode).creds[id]
  {
    hide Closed, FireAll, HistoryEnv;
    var ctx := Ctx(inp.st, HistoryRule(inp, mode), -1);
    var fs :| FireAll(ctx, HistoryStart(inp, view, mode), fs) == Some(h);
    FiringsRetain(ctx, HistoryStart(inp, view, mode), fs);
  }

  lemma HistoryGrows(inp: Input, view: Perspective, mode: Mode, h: State)
    requires WellFormed(inp) && Saturates(Ctx(inp.st, HistoryRule(inp, mode), -1), HistoryStart(inp, view, mode), h)
    requires Extends(HistoryStart(inp, view, mode), h)
    ensures Grows(inp.st, View(HistoryStart(inp, view, mode)), View(h))
  {
    hide Saturates, HistoryStart, Plain;
    HistoryTokens(inp, view, mode, h);
    var s := HistoryStart(inp, view, mode);
    var a, b := View(s).att, View(h).att;
    forall c | c in a.creds
      ensures c in b.creds
    {
      var id :| id in s.creds && s.creds[id] == c;
      assert h.creds[id] == c;
    }
    FactsWithin(s, h);
    WithinCovers(inp.st, a, b);
  }

  lemma FactsWithin(s: State, t: State)
    requires s.facts.Keys <= t.facts.Keys
    ensures View(s).att.pods <= View(t).att.pods && View(s).att.ctrls <= View(t).att.ctrls && View(s).att.know <= View(t).att.know
  {
    forall u | u in View(s).att.pods
      ensures u in View(t).att.pods
    {
      assert ControlsPod(u) in s.facts.Keys;
    }
    forall c | c in View(s).att.ctrls
      ensures c in View(t).att.ctrls
    {
      assert ControlsController(c) in s.facts.Keys;
    }
    forall x | x in View(s).att.know
      ensures x in View(t).att.know
    {
      assert KnowsSecret(x) in s.facts.Keys;
    }
  }

  lemma HistoryCovered(inp: Input, view: Perspective, mode: Mode, h: State, w: World)
    requires WellFormed(inp) && (mode.Full? || mode.WithoutLifecycle?)
    requires Saturates(Ctx(inp.st, HistoryRule(inp, mode), -1), HistoryStart(inp, view, mode), h)
    requires HistoryReach(inp, view, w)
    ensures CoversAtt(inp.st, w.att, View(h).att)
  {
    hide Good, EnvInv, HistoryStart, Closed, FireAll, RunActs, HistoryReach, Minted;
    var rule := HistoryRule(inp, mode);
    var ctx := Ctx(inp.st, rule, -1);
    var base := HistoryEnv(inp, view, mode);
    HistorySame(inp, view, mode);
    HistoryGood(inp, view, mode);
    SaturationGood(ctx, base, HistoryStart(inp, view, mode), h);
    HistoryGrows(inp, view, mode, h);
    HistoryWorldSelf(inp, view);
    CoversThenGrows(inp.st, HistoryWorld(inp, view), HistoryWorld(inp, view), View(h));
    HistoryTime(inp, view, mode, h);
    HistoryTokens(inp, view, mode, h);
    LoneSaturated(ctx, h);
    var acts := HistoryActs(inp, view, w);
    ActsCovered(inp.st, Window(inp.historyStart), rule, base, HistoryWorld(inp, view), View(h), acts);
  }

  lemma HistorySame(inp: Input, view: Perspective, mode: Mode)
    requires !mode.SnapshotOnly?
    ensures HistoryStart(inp, view, mode) == HistoryStart(inp, view, Full)
    ensures HistoryEnv(inp, view, mode) == HistoryEnv(inp, view, Full) == HistoryStart(inp, view, mode).env
    ensures HistoryEnv(inp, view, mode).time == inp.env.time
    ensures InitialState(inp, view, mode) == InitialState(inp, view, Full)
    ensures HistoryRuns(inp, view, mode) == HistoryRuns(inp, view, Full)
  {
    assert InitialFacts(inp, view, mode) == InitialFacts(inp, view, Full);
    assert HistoricalPods(inp, view, mode) == HistoricalPods(inp, view, Full);
    forall u | u in HistoricalPods(inp, view, mode)
      ensures FirstClaim(inp.historical, view, mode, u) == FirstClaim(inp.historical, view, Full, u)
    {
      SameClaim(inp.historical, view, mode, u);
    }
    assert FirstRows(inp, view, mode) == FirstRows(inp, view, Full);
  }

  lemma {:induction false} SameClaim(hs: seq<Historical>, view: Perspective, mode: Mode, u: Uid)
    requires !mode.SnapshotOnly?
    ensures FirstClaim(hs, view, mode, u) == FirstClaim(hs, view, Full, u)
  {
    if hs != [] { SameClaim(hs[1..], view, mode, u); }
  }

  lemma HistoryWorldSelf(inp: Input, view: Perspective)
    requires WellFormed(inp)
    ensures Covers(inp.st, HistoryWorld(inp, view), HistoryWorld(inp, view))
  {
    HistoryEnvGood(inp, view, Full);
    CoversSelf(inp.st, HistoryWorld(inp, view));
  }

  lemma HistoryTime(inp: Input, view: Perspective, mode: Mode, h: State)
    requires WellFormed(inp)
    requires EnvInv(HistoryEnv(inp, view, mode), h.env)
    ensures h.env.time == inp.env.time
  {
    assert Native(h.env).time == h.env.time;
  }

  /** The engine's start covers whatever any combination of possible histories contributes. */
  lemma GainCovered(inp: Input, view: Perspective, mode: Mode, start: State, a: Att)
    requires WellFormed(inp) && (mode.Full? || mode.WithoutLifecycle?)
    requires StartsMain(inp, view, mode, start) && HistoryGain(inp, view, a)
    ensures CoversAtt(inp.st, a, View(start).att)
  {
    hide HistoryReach, InitialState, Saturates, HistoryStart;
    HistorySame(inp, view, mode);
    if HistoryRuns(inp, view, mode) {
      var h :| Saturates(Ctx(inp.st, HistoryRule(inp, mode), -1), HistoryStart(inp, view, mode), h) && start == MainStart(inp, h);
      forall w | HistoryReach(inp, view, w)
        ensures CoversAtt(inp.st, w.att, View(h).att)
      {
        HistoryCovered(inp, view, mode, h, w);
      }
      assert View(start).att == View(h).att;
    } else {
      WithinCovers(inp.st, a, a);
    }
  }

  // ---------------------------------------------------------------- who runs under which UID

  /** The attack-free environments an engine run passes through, history's first. */
  function Era(inp: Input, view: Perspective, k: int): Env
    requires -1 <= k <= |inp.actions|
  {
    if k == -1 then HistoryEnv(inp, view, Full) else Base(inp, k)
  }

  function FirstEra(ran: bool): int { if ran then -1 else 0 }

  /** No Pod of any of them clashes with an earlier one: a look at inventory, historical Pods and
      actions decides this. */
  ghost predicate ClashFree(inp: Input, view: Perspective)
    requires inp.st.api != []
  {
    ClashFreeFrom(inp, view, FirstEra(HistoryRuns(inp, view, Full)))
  }

  ghost predicate ClashFreeFrom(inp: Input, view: Perspective, first: int)
    requires inp.st.api != [] && -1 <= first
  {
    forall i, j, u :: first <= i < j <= |inp.actions| ==> !Clashes(inp.st, Era(inp, view, i), Era(inp, view, j), u)
  }

  lemma {:induction false} BaseCtrls(inp: Input, k: nat)
    requires k <= |inp.actions|
    ensures forall c :: c in Base(inp, k).ctrls ==> c in inp.env.ctrls && Base(inp, k).ctrls[c] == inp.env.ctrls[c]
  {
    hide Reconcile, Defend;
    if k == 0 {
      ReconcileOnlyPods(inp.env);
    } else {
      BaseCtrls(inp, k - 1);
      var d := Defend(Base(inp, k - 1), inp.actions[k - 1]);
      DefendShrinks(Base(inp, k - 1), inp.actions[k - 1]);
      ReconcileOnlyPods(d);
    }
  }

  lemma NativeCtrls(inp: Input, k: nat)
    requires WellFormed(inp) && k <= |inp.actions|
    ensures forall c :: c in Base(inp, k).ctrls ==> !Created(c)
  {
    BaseCtrls(inp, k);
  }

  lemma {:induction false} ErasSucceed(inp: Input, view: Perspective, i: int, k: nat)
    requires WellFormed(inp) && -1 <= i <= k <= |inp.actions|
    ensures Succeeds(inp.env.ctrls, Era(inp, view, i), Base(inp, k))
    decreases k
  {
    hide Reconcile, Defend, HistoryEnv, Succeeds, Plain;
    if i == k {
      SucceedsSelf(inp.env.ctrls, Base(inp, k));
    } else if k == 0 {
      HistorySucceeds(inp, view);
    } else {
      ErasSucceed(inp, view, i, k - 1);
      BaseCtrls(inp, k - 1);
      NativeCtrls(inp, k - 1);
      DefendSucceeds(inp.env.ctrls, Base(inp, k - 1), inp.actions[k - 1]);
      SucceedsThen(inp.env.ctrls, Era(inp, view, i), Base(inp, k - 1), Base(inp, k));
    }
  }

  lemma HistorySucceeds(inp: Input, view: Perspective)
    requires WellFormed(inp)
    ensures Succeeds(inp.env.ctrls, HistoryEnv(inp, view, Full), Base(inp, 0))
  {
    hide Reconcile;
    ReconcileSucceeds(inp.env.ctrls, inp.env);
  }

  lemma ValidStatic(inp: Input)
    requires WellFormed(inp)
    ensures inp.st.Valid()
  {
  }

  /** Objects the attacker created do not matter: each always runs as the same account. */
  lemma NativeSucceeds(ctrls: map<Uid, Controller>, e: Env, f: Env)
    requires Shaped(f) && Succeeds(ctrls, Native(e), Native(f))
    ensures Succeeds(ctrls, e, f)
  {
    forall u | u in f.pods
      ensures (u in e.pods && e.pods[u] == f.pods[u]) || f.pods[u].Acct() == Heir(ctrls, u)
    {
      if Created(u) {
        assert ShapedPod(f, u);
      } else {
        assert u in Native(f).pods;
      }
    }
    assert Native(e).sas == e.sas && Native(f).sas == f.sas && Native(e).time == e.time && Native(f).time == f.time;
  }

  lemma CreatedAccount(e: Env, u: Uid)
    requires Shaped(e) && u in e.pods && Created(u)
    ensures e.pods[u].Acct() == Class(u)
  {
    assert ShapedPod(e, u);
  }

  lemma NativeClash(st: Static, e: Env, f: Env, u: Uid)
    requires st.api != [] && Shaped(e) && Shaped(f) && Clashes(st, e, f, u)
    ensures !Created(u) && Clashes(st, Native(e), Native(f), u)
  {
    if Created(u) {
      CreatedAccount(e, u);
      CreatedAccount(f, u);
    }
    assert Native(e).sas == e.sas && Native(f).sas == f.sas && Native(e).time == e.time && Native(f).time == f.time;
  }

  // ---------------------------------------------------------------- the engine's line

  /** How a run opens: with the fixpoint of history, if that phase `ran`. */
  ghost predicate Opens(inp: Input, view: Perspective, mode: Mode, ran: bool, start: State, first: State)
    requires inp.st.api != []
  {
    if ran then Saturates(Ctx(inp.st, HistoryRule(inp, mode), -1), HistoryStart(inp, view, mode), first) && start == MainStart(inp, first)
    else start == MainStart(inp, InitialState(inp, view, mode)) && first == start
  }

  /** The saturations of a run, the history's before those of the intervals. */
  ghost predicate LineOf(inp: Input, view: Perspective, mode: Mode, ran: bool, start: State, stages: seq<State>, line: seq<State>)
    requires inp.st.api != []
  {
    |line| == |stages| + 1 && line[1..] == stages && Opens(inp, view, mode, ran, start, line[0])
  }

  lemma LineExists(inp: Input, view: Perspective, mode: Mode, start: State, stages: seq<State>) returns (line: seq<State>)
    requires inp.st.api != [] && StartsMain(inp, view, mode, start)
    ensures LineOf(inp, view, mode, HistoryRuns(inp, view, mode), start, stages, line)
  {
    hide Saturates, InitialState, HistoryStart;
    if HistoryRuns(inp, view, mode) {
      var h :| Saturates(Ctx(inp.st, HistoryRule(inp, mode), -1), HistoryStart(inp, view, mode), h) && start == MainStart(inp, h);
      line := [h] + stages;
    } else {
      line := [start] + stages;
    }
  }

  lemma OpensGood(inp: Input, view: Perspective, mode: Mode, ran: bool, start: State, first: State)
    requires WellFormed(inp) && inp.st.api != [] && Opens(inp, view, mode, ran, start, first)
    ensures Good(0, start) && start.env == Reconcile(inp.env) && first.creds == start.creds && first.facts == start.facts
  {
    hide Saturates, InitialState, HistoryStart, Good, Reconcile;
    if ran {
      HistoryLeavesGood(inp, view, mode, first);
    } else {
      InitialGood(inp, view, mode);
      InitialStartGood(inp, view, mode);
    }
  }

  lemma InitialStartGood(inp: Input, view: Perspective, mode: Mode)
    requires WellFormed(inp)
    ensures Good(0, MainStart(inp, InitialState(inp, view, mode)))
  {
    InitialGood(inp, view, mode);
    MainStartGood(inp, InitialState(inp, view, mode));
  }

  /** What the native part of the line's environments is. */
  ghost predicate NativeEra(inp: Input, view: Perspective, i: int, e: Env)
    requires -1 <= i <= |inp.actions|
  {
    Shaped(e) && (Native(e) == Era(inp, view, i) || (i == -1 && Native(e) == Reconcile(Era(inp, view, -1))))
  }

  lemma StageEra(inp: Input, view: Perspective, s: State, k: nat)
    requires WellFormed(inp) && k <= |inp.actions| && StageGood(inp, s, k)
    ensures NativeEra(inp, view, k, s.env)
  {
    hide Reconcile, Reconciled, Native;
    ReconcileIdempotent(Base(inp, k));
  }

  lemma FirstIsEra(inp: Input, view: Perspective, mode: Mode, ran: bool, start: State, first: State)
    requires WellFormed(inp) && (mode.Full? || mode.WithoutLifecycle?) && inp.st.api != [] && Opens(inp, view, mode, ran, start, first)
    ensures NativeEra(inp, view, FirstEra(ran), first.env) && Line(inp.st, inp.env.ctrls, [first])
  {
    hide Reconcile, Native, HistoryStart, HistoryEnv, Line, Succeeds, Minted, Good, Saturates, Reconciled, Shaped;
    HistorySame(inp, view, mode);
    if ran {
      HistoryGood(inp, view, mode);
      SaturationGood(Ctx(inp.st, HistoryRule(inp, mode), -1), HistoryEnv(inp, view, mode), HistoryStart(inp, view, mode), first);
      HistoryTokens(inp, view, mode, first);
    } else {
      MainEnvGood(inp);
      ReconcileIdempotent(Base(inp, 0));
      PlainCreds(inp, view, mode, start);
    }
    LineOfOne(inp.st, inp.env.ctrls, first);
  }

  lemma PlainCreds(inp: Input, view: Perspective, mode: Mode, start: State)
    requires WellFormed(inp) && start == MainStart(inp, InitialState(inp, view, mode))
    ensures forall id :: id in start.creds ==> !id.Projected?
  {
    hide Reconcile;
  }

  lemma EraSucceeds(inp: Input, view: Perspective, i: int, k: nat, e: Env, f: Env)
    requires WellFormed(inp) && -1 <= i <= k <= |inp.actions| && NativeEra(inp, view, i, e) && NativeEra(inp, view, k, f)
    ensures Succeeds(inp.env.ctrls, e, f)
  {
    hide Reconcile, Shaped, Era, Heir, Plain;
    ErasSucceed(inp, view, i, k);
    var E := Era(inp, view, i);
    ReconcileKeepsPods(E);
    ReconcileOnlyPods(E);
    assert Era(inp, view, k) == Base(inp, k) by { EraIsBase(inp, view, k); }
    NativeSucceeds(inp.env.ctrls, e, f);
  }

  lemma EraIsBase(inp: Input, view: Perspective, k: nat)
    requires k <= |inp.actions|
    ensures Era(inp, view, k) == Base(inp, k)
  {
  }

  /** The replacements made in history run as the accounts they would run as today. */
  lemma EraUnclashed(inp: Input, view: Perspective, ran: bool, i: int, k: nat, e: Env, f: Env, u: Uid)
    requires WellFormed(inp) && ClashFreeFrom(inp, view, FirstEra(ran)) && FirstEra(ran) <= i <= k <= |inp.actions|
    requires NativeEra(inp, view, i, e) && NativeEra(inp, view, k, f)
    ensures !Clashes(inp.st, e, f, u)
  {
    hide Reconcile, Shaped, Era, Native, Plain;
    ValidStatic(inp);
    EraIsBase(inp, view, k);
    if i < k { ErasApart(inp, view, ran, i, k, u); }
    if Clashes(inp.st, e, f, u) {
      NativeClash(inp.st, e, f, u);
      if i < k && Native(e) != Era(inp, view, i) { HistoryReplica(inp, view, k, u); }
    }
  }

  lemma ErasApart(inp: Input, view: Perspective, ran: bool, i: int, k: nat, u: Uid)
    requires inp.st.api != [] && ClashFreeFrom(inp, view, FirstEra(ran)) && FirstEra(ran) <= i < k <= |inp.actions|
    ensures !Clashes(inp.st, Era(inp, view, i), Era(inp, view, k), u)
  {
  }

  lemma HistoryReplica(inp: Input, view: Perspective, k: nat, u: Uid)
    requires WellFormed(inp) && inp.st.api != [] && k <= |inp.actions| && !Created(u) && Clashes(inp.st, Reconcile(Era(inp, view, -1)), Base(inp, k), u)
    ensures Clashes(inp.st, Era(inp, view, -1), Base(inp, k), u)
  {
    hide Reconcile, Base;
    var E := HistoryEnv(inp, view, Full);
    ReconcileKeepsPods(E);
    ReconcileOnlyPods(E);
    ErasSucceed(inp, view, -1, k);
  }

  /** The engine's saturations form a line, and none of its Pods clash. */
  lemma {:induction false} EngineLine(inp: Input, view: Perspective, mode: Mode, ran: bool, start: State, stages: seq<State>, line: seq<State>, k: nat)
    requires WellFormed(inp) && (mode.Full? || mode.WithoutLifecycle?) && inp.st.api != [] && Ladder(inp, MainRule(mode), start, stages) && k <= |stages|
    requires LineOf(inp, view, mode, ran, start, stages, line)
    ensures Line(inp.st, inp.env.ctrls, line[..k + 1])
    ensures forall m :: 1 <= m <= k ==> NativeEra(inp, view, m - 1, line[m].env)
    ensures NativeEra(inp, view, FirstEra(ran), line[0].env)
    decreases k
  {
    hide Line, Succeeds, NativeEra, Good, EnvInv, Reconcile, Defend, Reconciled, Retained, Saturates, Plain;
    ValidStatic(inp);
    FirstIsEra(inp, view, mode, ran, start, line[0]);
    if k == 0 {
      assert line[..1] == [line[0]];
    } else {
      EngineLine(inp, view, mode, ran, start, stages, line, k - 1);
      OpensGood(inp, view, mode, ran, start, line[0]);
      LadderGood(inp, MainRule(mode), start, stages, k - 1);
      assert stages[k - 1] == line[k];
      StageEra(inp, view, stages[k - 1], k - 1);
      var before := StageRetains(inp, mode, start, stages, k - 1);
      var sofar := line[..k];
      if k == 1 {
        EraSucceeds(inp, view, FirstEra(ran), 0, line[0].env, line[1].env);
      } else {
        assert stages[k - 2] == line[k - 1];
        EraSucceeds(inp, view, k - 2, k - 1, line[k - 1].env, line[k].env);
      }
      LineOfMore(inp.st, inp.env.ctrls, sofar, before, line[k]);
      assert sofar + [line[k]] == line[..k + 1];
    }
  }

  /** Each interval starts from the tables of the one before. */
  lemma StageRetains(inp: Input, mode: Mode, start: State, stages: seq<State>, k: nat) returns (before: State)
    requires WellFormed(inp) && Ladder(inp, MainRule(mode), start, stages) && k < |stages|
    ensures before.creds == (if k == 0 then start.creds else stages[k - 1].creds) && Retained(inp.st, before, stages[k])
  {
    hide Closed, Reconcile, Defend, Retained;
    var ctx := Ctx(inp.st, MainRule(mode), k);
    if k == 0 {
      before := start;
    } else {
      before := NextState(stages[k - 1], inp.actions[k - 1]);
      assert Saturates(Ctx(inp.st, MainRule(mode), (k - 1) + 1), before, stages[(k - 1) + 1]);
    }
    var fs :| FireAll(ctx, before, fs) == Some(stages[k]);
    FiringsRetain(ctx, before, fs);
  }

  // ---------------------------------------------------------------- soundness

  /** The worlds of the attacker with all the tokens it took, one per interval. */
  function Grands(line: seq<State>): seq<World>
    requires line != []
  {
    seq(|line| - 1, k requires 0 <= k < |line| - 1 => Grand(line, k + 1))
  }

  lemma GrandRung(inp: Input, view: Perspective, mode: Mode, ran: bool, start: State, stages: seq<State>, line: seq<State>, k: nat)
    requires WellFormed(inp) && inp.st.api != [] && ClashFreeFrom(inp, view, FirstEra(ran)) && (mode.Full? || mode.WithoutLifecycle?)
    requires Ladder(inp, MainRule(mode), start, stages) && LineOf(inp, view, mode, ran, start, stages, line)
    requires k <= |inp.actions|
    ensures Rung(inp, k, Grand(line, k + 1))
  {
    hide Line, Succeeds, NativeEra, Good, EnvInv, Reconcile, Defend, Reconciled, Saturated, Closed, ClashFree, Clashes, FireAll, Plain;
    ValidStatic(inp);
    EngineLine(inp, view, mode, ran, start, stages, line, |stages|);
    assert line[..|stages| + 1] == line;
    OpensGood(inp, view, mode, ran, start, line[0]);
    LadderGood(inp, MainRule(mode), start, stages, k);
    var s := line[k + 1];
    assert s == stages[k];
    forall i, u | 0 <= i < k + 1
      ensures !Clashes(inp.st, line[i].env, s.env, u)
    {
      EraUnclashed(inp, view, ran, if i == 0 then FirstEra(ran) else i - 1, k, line[i].env, s.env, u);
    }
    ClosedStage(inp, MainRule(mode), start, stages, k);
    LineSaturated(inp.st, inp.env.ctrls, line, Ctx(inp.st, MainRule(mode), k), k + 1);
  }

  lemma ClosedStage(inp: Input, rule: UseRule, start: State, stages: seq<State>, k: nat)
    requires inp.st.api != [] && Ladder(inp, rule, start, stages) && k <= |inp.actions|
    ensures Closed(Ctx(inp.st, rule, k), stages[k])
  {
    hide Closed, FireAll;
    assert k > 0 ==> Saturates(Ctx(inp.st, rule, (k - 1) + 1), NextState(stages[k - 1], inp.actions[k - 1]), stages[(k - 1) + 1]);
  }

  lemma GrandGrows(inp: Input, mode: Mode, view: Perspective, ran: bool, start: State, stages: seq<State>, line: seq<State>, k: nat)
    requires WellFormed(inp) && inp.st.api != [] && Ladder(inp, MainRule(mode), start, stages)
    requires LineOf(inp, view, mode, ran, start, stages, line) && k <= |inp.actions|
    ensures k == 0 ==> Grows(inp.st, World(start.env, View(start).att), Grand(line, 1))
    ensures k > 0 ==> Grows(inp.st, DefendWorld(Grand(line, k), inp.actions[k - 1]), Grand(line, k + 1))
  {
    hide Good, EnvInv, Reconcile, Defend, Extends, Saturates, Grows, Plain;
    OpensGood(inp, view, mode, ran, start, line[0]);
    if k == 0 {
      FirstStage(inp, MainRule(mode), start, stages);
      assert line[1] == stages[0];
      LineGrows(inp.st, line, 0, start);
      FirstGrand(line, start);
    } else {
      LadderGood(inp, MainRule(mode), start, stages, k - 1);
      NextStage(inp, MainRule(mode), start, stages, k - 1);
      assert line[k] == stages[k - 1] && line[k + 1] == stages[k];
      LineGrows(inp.st, line, k, NextState(stages[k - 1], inp.actions[k - 1]));
    }
  }

  lemma FirstGrand(line: seq<State>, start: State)
    requires line != [] && line[0].creds == start.creds && line[0].facts == start.facts
    ensures Grand(line, 0).att == View(start).att
  {
    assert AllCreds(line, 0) == View(start).att.creds by {
      forall c | c in View(start).att.creds
        ensures c in AllCreds(line, 0)
      {
        var id :| id in start.creds && start.creds[id] == c;
        InAllCreds(line, 0, 0, id);
      }
    }
  }

  lemma EngineLadder(inp: Input, view: Perspective, mode: Mode, ran: bool, start: State, stages: seq<State>, line: seq<State>)
    requires WellFormed(inp) && inp.st.api != [] && ClashFreeFrom(inp, view, FirstEra(ran)) && (mode.Full? || mode.WithoutLifecycle?)
    requires Ladder(inp, MainRule(mode), start, stages) && LineOf(inp, view, mode, ran, start, stages, line)
    ensures WorldLadder(inp, Grands(line))
  {
    hide StartsMain, Ladder, LineOf, ClashFree, Rung, Grows, Grand, Plain, Reconcile, Defend;
    ValidStatic(inp);
    LadderLength(inp, MainRule(mode), start, stages);
    assert |line| == |stages| + 1 by { LineLength(inp, view, mode, ran, start, stages, line); }
    forall k | 0 <= k <= |inp.actions|
      ensures Rung(inp, k, Grands(line)[k])
      ensures k < |inp.actions| ==> Grows(inp.st, DefendWorld(Grands(line)[k], inp.actions[k]), Grands(line)[k + 1])
    {
      GrandRung(inp, view, mode, ran, start, stages, line, k);
      if k < |inp.actions| { GrandGrows(inp, mode, view, ran, start, stages, line, k + 1); }
    }
  }

  lemma LineLength(inp: Input, view: Perspective, mode: Mode, ran: bool, start: State, stages: seq<State>, line: seq<State>)
    requires inp.st.api != [] && LineOf(inp, view, mode, ran, start, stages, line)
    ensures |line| == |stages| + 1
  {
  }

  /** Whatever an attacker covered at the start violates in the end, the engine reports. */
  lemma LineSound(inp: Input, view: Perspective, mode: Mode, ran: bool, start: State, stages: seq<State>, line: seq<State>, a: Att, moves: seq<Move>, obj: Objective)
    requires WellFormed(inp) && inp.st.api != [] && ClashFreeFrom(inp, view, FirstEra(ran)) && (mode.Full? || mode.WithoutLifecycle?)
    requires Ladder(inp, MainRule(mode), start, stages) && LineOf(inp, view, mode, ran, start, stages, line)
    requires CoversAtt(inp.st, a, View(start).att)
    requires Run(inp.st, Now, inp.actions, Stage(0, World(Reconcile(inp.env), a)), moves).Some?
    requires var s := Run(inp.st, Now, inp.actions, Stage(0, World(Reconcile(inp.env), a)), moves).value;
      s.phase == |inp.actions| && Violated(inp.st, Now, s.world, obj)
    ensures |stages| == |inp.actions| + 1 && Goal(obj) in stages[|inp.actions|].eph
  {
    hide Good, Ladder, Reconcile, Opens, Run, ClashFreeFrom, WorldLadder, Covers, CoversAtt, Grows, Violated, Line, NativeEra, Closed;
    LadderLength(inp, MainRule(mode), start, stages);
    OpensGood(inp, view, mode, ran, start, line[0]);
    EngineLadder(inp, view, mode, ran, start, stages, line);
    NativeCovered(inp, a, World(start.env, View(start).att));
    GrandGrows(inp, mode, view, ran, start, stages, line, 0);
    CoversThenGrows(inp.st, World(Reconcile(inp.env), a), World(start.env, View(start).att), Grands(line)[0]);
    FinalCovered(inp, Grands(line), a, moves, obj);
    FinalGoals(inp, view, mode, ran, start, stages, line, obj);
  }

  /** Soundness: as long as no two Pods clash, whatever any interleaving of single attacker steps,
      started from any possible history, violates at the final phase, the engine reports. */
  lemma EngineSound(inp: Input, view: Perspective, mode: Mode, stages: seq<State>, a: Att, moves: seq<Move>, obj: Objective)
    requires WellFormed(inp) && ClashFree(inp, view) && (mode.Full? || mode.WithoutLifecycle?) && EngineRun(inp, view, mode, stages)
    requires HistoryGain(inp, view, a)
    requires Run(inp.st, Now, inp.actions, Stage(0, World(Reconcile(inp.env), a)), moves).Some?
    requires var s := Run(inp.st, Now, inp.actions, Stage(0, World(Reconcile(inp.env), a)), moves).value;
      s.phase == |inp.actions| && Violated(inp.st, Now, s.world, obj)
    ensures Goal(obj) in stages[|inp.actions|].eph
  {
    hide Good, Ladder, Reconcile, StartsMain, HistoryGain, Run, LineOf, ClashFreeFrom, CoversAtt, Violated, HistoryRuns, HistoryStart, InitialState, HistoryEnv;
    var start :| StartsMain(inp, view, mode, start) && Ladder(inp, MainRule(mode), start, stages);
    HistorySame(inp, view, mode);
    var line := LineExists(inp, view, mode, start, stages);
    GainCovered(inp, view, mode, start, a);
    LineSound(inp, view, mode, HistoryRuns(inp, view, mode), start, stages, line, a, moves, obj);
  }

  lemma FinalGoals(inp: Input, view: Perspective, mode: Mode, ran: bool, start: State, stages: seq<State>, line: seq<State>, obj: Objective)
    requires WellFormed(inp) && (mode.Full? || mode.WithoutLifecycle?) && |stages| == |inp.actions| + 1 && |line| == |stages| + 1
    requires inp.st.api != [] && Ladder(inp, MainRule(mode), start, stages) && LineOf(inp, view, mode, ran, start, stages, line)
    requires Violated(inp.st, Now, Grands(line)[|inp.actions|], obj)
    ensures Goal(obj) in stages[|inp.actions|].eph
  {
    hide Good, Ladder, StartsMain, Line, NativeEra, Closed, Violated, Grand;
    var n := |inp.actions|;
    OpensGood(inp, view, mode, ran, start, line[0]);
    EngineLine(inp, view, mode, ran, start, stages, line, |stages|);
    assert line[..|stages| + 1] == line;
    LadderGood(inp, MainRule(mode), start, stages, n);
    ClosedStage(inp, MainRule(mode), start, stages, n);
    assert line[n + 1] == stages[n];
    LineGoals(inp.st, inp.env.ctrls, line, Ctx(inp.st, MainRule(mode), n), n + 1, obj);
  }

  // ---------------------------------------------------------------- completeness

  function AsMoves(acts: seq<Act>): seq<Move> {
    if acts == [] then [] else AsMoves(acts[..|acts| - 1]) + [Attacker(acts[|acts| - 1])]
  }

  lemma {:induction false} ActsAsMoves(st: Static, rule: UseRule, actions: seq<Action>, s: Stage, moves: seq<Move>, acts: seq<Act>)
    requires st.api != [] && Run(st, rule, actions, s, moves).Some?
    requires RunActs(st, rule, Run(st, rule, actions, s, moves).value.world, acts).Some?
    ensures var m := Run(st, rule, actions, s, moves).value;
      Run(st, rule, actions, s, moves + AsMoves(acts)) == Some(Stage(m.phase, RunActs(st, rule, m.world, acts).value))
  {
    if acts == [] {
      assert moves + AsMoves(acts) == moves;
    } else {
      var init := acts[..|acts| - 1];
      ActsAsMoves(st, rule, actions, s, moves, init);
      assert moves + AsMoves(acts) == (moves + AsMoves(init)) + [Attacker(acts[|acts| - 1])];
      RunExtend(st, rule, actions, s, moves + AsMoves(init), Attacker(acts[|acts| - 1]));
    }
  }

  lemma SaturationAsMoves(ctx: Ctx, actions: seq<Action>, s: Stage, moves: seq<Move>, before: State, after: State) returns (more: seq<Move>)
    requires ctx.Valid() && Saturates(ctx, before, after) && RuleFits(ctx, before.env) && before.eph == map[]
    requires Run(ctx.st, ctx.rule, actions, s, moves).Some? && Backs(Run(ctx.st, ctx.rule, actions, s, moves).value.world, before)
    ensures Run(ctx.st, ctx.rule, actions, s, more).Some?
    ensures var m := Run(ctx.st, ctx.rule, actions, s, more).value;
      && m.phase == Run(ctx.st, ctx.rule, actions, s, moves).value.phase
      && Backs(m.world, after) && GoalsBacked(ctx.st, ctx.rule, m.world, after)
  {
    hide Backs, RunActs, FireAll, Closed;
    var m := Run(ctx.st, ctx.rule, actions, s, moves).value;
    var fs :| FireAll(ctx, before, fs) == Some(after);
    var acts := FiringsAreARun(ctx, m.world, before, fs);
    ActsAsMoves(ctx.st, ctx.rule, actions, s, moves, acts);
    more := moves + AsMoves(acts);
  }

  lemma DefendBacked(w: World, s: State, a: Action)
    requires Backs(w, s)
    ensures Backs(DefendWorld(w, a), NextState(s, a))
  {
    hide Reconcile;
    ReconcileOnlyPods(Defend(w.env, a));
    forall name, v | PossessesDownstream(name, v) in s.facts
      ensures HoldsDownstream(DefendWorld(w, a), name, v)
    {
      assert HoldsDownstream(w, name, v);
      SourceKept(w.env, a, name);
    }
  }

  lemma SourceKept(e: Env, a: Action, name: string)
    requires name in e.services
    ensures name in Defend(e, a).services && Defend(e, a).services[name].source == e.services[name].source
  {
  }

  lemma {:induction false} LadderAsMoves(inp: Input, start: State, stages: seq<State>, a: Att, k: nat) returns (moves: seq<Move>)
    requires Parsed(inp) && Ladder(inp, Now, start, stages) && k <= |inp.actions|
    requires start.eph == map[] && Backs(World(start.env, a), start)
    ensures Run(inp.st, Now, inp.actions, Stage(0, World(start.env, a)), moves).Some?
    ensures var m := Run(inp.st, Now, inp.actions, Stage(0, World(start.env, a)), moves).value;
      m.phase == k && Backs(m.world, stages[k]) && GoalsBacked(inp.st, Now, m.world, stages[k])
    decreases k
  {
    hide Backs, Saturates, GoalsBacked;
    var s := Stage(0, World(start.env, a));
    if k == 0 {
      moves := SaturationAsMoves(Ctx(inp.st, Now, 0), inp.actions, s, [], start, stages[0]);
    } else {
      var before := LadderAsMoves(inp, start, stages, a, k - 1);
      RunExtend(inp.st, Now, inp.actions, s, before, Defender);
      DefendBacked(Run(inp.st, Now, inp.actions, s, before).value.world, stages[k - 1], inp.actions[k - 1]);
      assert Saturates(Ctx(inp.st, Now, (k - 1) + 1), NextState(stages[k - 1], inp.actions[k - 1]), stages[(k - 1) + 1]);
      moves := SaturationAsMoves(Ctx(inp.st, Now, k), inp.actions, s, before + [Defender], NextState(stages[k - 1], inp.actions[k - 1]), stages[k]);
    }
  }

  lemma StartBacked(inp: Input, view: Perspective, start: State) returns (a: Att)
    requires Parsed(inp) && StartsMain(inp, view, Full, start)
    ensures HistoryGain(inp, view, a) && Backs(World(start.env, a), start) && start.eph == map[] && start.env == Reconcile(inp.env)
  {
    hide Reconcile, EnvInv, Good;
    if HistoryRuns(inp, view, Full) {
      var ctx := Ctx(inp.st, HistoryRule(inp, Full), -1);
      var h :| Saturates(ctx, HistoryStart(inp, view, Full), h) && start == MainStart(inp, h);
      a := HistoryBacked(inp, view, h);
    } else {
      a := View(InitialState(inp, view, Full)).att;
      InitialBacked(inp, view, start, a);
    }
  }

  lemma InitialBacked(inp: Input, view: Perspective, start: State, a: Att)
    requires start == MainStart(inp, InitialState(inp, view, Full)) && a == View(InitialState(inp, view, Full)).att
    ensures Backs(World(start.env, a), start)
  {
    hide Reconcile;
    var s := InitialState(inp, view, Full);
    assert forall f :: f in s.facts ==> !f.PossessesDownstream?;
    ViewBacks(s);
  }

  lemma ViewBacks(s: State)
    requires forall f :: f in s.facts ==> !f.PossessesDownstream?
    ensures Backs(View(s), s)
  {
  }

  lemma HistoryBacked(inp: Input, view: Perspective, h: State) returns (a: Att)
    requires Parsed(inp) && HistoryRuns(inp, view, Full)
    requires Saturates(Ctx(inp.st, HistoryRule(inp, Full), -1), HistoryStart(inp, view, Full), h)
    ensures HistoryGain(inp, view, a) && Backs(World(Reconcile(inp.env), a), MainStart(inp, h))
  {
    hide Reconcile, HistoryReach, Backs;
    var w := HistoryAsWorld(inp, view, h);
    a := w.att;
  }

  /** What a saturated history knows, one possible history knows. */
  lemma HistoryAsWorld(inp: Input, view: Perspective, h: State) returns (w: World)
    requires Parsed(inp) && Saturates(Ctx(inp.st, HistoryRule(inp, Full), -1), HistoryStart(inp, view, Full), h)
    ensures HistoryReach(inp, view, w) && Backs(World(Reconcile(inp.env), w.att), MainStart(inp, h))
  {
    hide Reconcile, RunActs, FireAll, Closed, HistoryEnv, HistoryReach;
    var ctx := Ctx(inp.st, HistoryRule(inp, Full), -1);
    var s := HistoryStart(inp, view, Full);
    var fs :| FireAll(ctx, s, fs) == Some(h);
    HistoryViewBacks(inp, view);
    HistorySame(inp, view, Full);
    var acts := FiringsAreARun(ctx, View(s), s, fs);
    w := RunActs(ctx.st, ctx.rule, View(s), acts).value;
    ReachByActs(inp, view, acts, w);
    HistoryServices(inp, view, acts, w, h);
  }

  lemma HistoryViewBacks(inp: Input, view: Perspective)
    ensures Backs(View(HistoryStart(inp, view, Full)), HistoryStart(inp, view, Full))
    ensures HistoryStart(inp, view, Full).eph == map[]
  {
    var s := HistoryStart(inp, view, Full);
    assert forall f :: f in s.facts ==> f in HistoricalFacts(inp, view, Full) || f in InitialFacts(inp, view, Full);
    ViewBacks(s);
  }

  lemma HistoryServices(inp: Input, view: Perspective, acts: seq<Act>, w: World, h: State)
    requires Parsed(inp) && RunActs(inp.st, Window(inp.historyStart), HistoryWorld(inp, view), acts) == Some(w) && Backs(w, h)
    ensures Backs(World(Reconcile(inp.env), w.att), MainStart(inp, h))
  {
    hide Reconcile, RunActs;
    ActsKeepServices(inp.st, Window(inp.historyStart), HistoryWorld(inp, view), acts);
    ReconcileOnlyPods(inp.env);
    forall name, v | PossessesDownstream(name, v) in h.facts
      ensures HoldsDownstream(World(Reconcile(inp.env), w.att), name, v)
    {
      assert HoldsDownstream(w, name, v);
    }
  }

  lemma {:induction false} ActsKeepServices(st: Static, rule: UseRule, w: World, acts: seq<Act>)
    requires st.api != [] && RunActs(st, rule, w, acts).Some?
    ensures RunActs(st, rule, w, acts).value.env.services == w.env.services
  {
    hide Enabled;
    if acts != [] {
      ActsKeepServices(st, rule, w, acts[..|acts| - 1]);
      StepKeepsServices(st, RunActs(st, rule, w, acts[..|acts| - 1]).value, acts[|acts| - 1]);
    }
  }

  lemma StepKeepsServices(st: Static, w: World, act: Act)
    ensures Do(st, w, act).env.services == w.env.services
  {
  }

  /** Completeness: one single interleaving violates every goal the engine reports, for every input
      the parser accepts. */
  lemma EngineComplete(inp: Input, view: Perspective, stages: seq<State>) returns (a: Att, moves: seq<Move>)
    requires Parsed(inp) && EngineRun(inp, view, Full, stages)
    ensures HistoryGain(inp, view, a)
    ensures Run(inp.st, Now, inp.actions, Stage(0, World(Reconcile(inp.env), a)), moves).Some?
    ensures var s := Run(inp.st, Now, inp.actions, Stage(0, World(Reconcile(inp.env), a)), moves).value;
      && s.phase == |inp.actions|
      && forall obj :: Goal(obj) in stages[|inp.actions|].eph ==> Violated(inp.st, Now, s.world, obj)
  {
    hide Reconcile, Ladder, StartsMain, Backs, HistoryGain, Run;
    var start :| StartsMain(inp, view, Full, start) && Ladder(inp, Now, start, stages);
    a := StartBacked(inp, view, start);
    moves := LadderAsMoves(inp, start, stages, a, |inp.actions|);
  }

  // ---------------------------------------------------------------- what is attainable

  /** Some interleaving of this view's attacker violates the objective at the final phase. */
  ghost predicate Attainable(inp: Input, view: Perspective, obj: Objective)
    requires inp.st.api != []
  {
    exists a, moves :: AttainedBy(inp, view, a, moves, obj)
  }

  ghost predicate AttainedBy(inp: Input, view: Perspective, a: Att, moves: seq<Move>, obj: Objective)
    requires inp.st.api != []
  {
    && HistoryGain(inp, view, a)
    && var s := Run(inp.st, Now, inp.actions, Stage(0, World(Reconcile(inp.env), a)), moves);
       s.Some? && s.value.phase == |inp.actions| && Violated(inp.st, Now, s.value.world, obj)
  }

  ghost predicate Reported(inp: Input, stages: seq<State>, obj: Objective) {
    |stages| == |inp.actions| + 1 && Goal(obj) in stages[|inp.actions|].eph
  }

  /** An attainable objective that no run of the engine reports; and there are runs. */
  ghost predicate Missed(inp: Input, view: Perspective, obj: Objective)
    requires inp.st.api != []
  {
    && Attainable(inp, view, obj)
    && (exists stages :: EngineRun(inp, view, Full, stages))
    && (forall stages :: EngineRun(inp, view, Full, stages) ==> !Reported(inp, stages, obj))
  }
}
