/** The reference explorer's two breadth-first searches, with their state cap
    (packages/afterlock_reference/__init__.py, `_goals` and `explore`). */
module Explorer {
  import opened Model
  import opened Semantics
  import opened Attack
  import opened Fixpoint
  import opened Case
  import opened Interleavings
  import opened Exactness
  import opened Reference
  import opened Agreement
  import opened EngineStatus
  import opened Engine
  import opened Results

  datatype Exploration = Exploration(reachable: set<Objective>, states: nat, complete: bool)

  // ---------------------------------------------------------------- goals, as the explorer reads them

  predicate GoalMet(st: Static, w: World, o: Objective) {
    match o
    case NoSecretRead(s) =>
      s in w.env.secrets && exists c :: c in w.att.creds && CredCheck(st, w.env, c, None).CredOk? && CanRead(st, w.env.bindings, c.user, s)
    case NoDownstreamUse(name) =>
      && name in w.env.services
      && exists k :: k in w.att.know && k.secret == w.env.services[name].source && Honours(w.env, w.env.services[name], k.version)
  }

  function GoalsAt(st: Static, w: World, objectives: seq<Objective>): set<Objective> {
    set o | o in objectives && GoalMet(st, w, o)
  }

  lemma GoalMetIsViolation(st: Static, w: World, o: Objective)
    ensures GoalMet(st, w, o) <==> Violated(st, Now, w, o)
  {
    forall c: Cred
      ensures CredCheck(st, w.env, c, None).CredOk? <==> CanUse(st, w.env, c, Now)
    {
      CredCheckIsExact(st, w.env, c, None);
    }
    assert forall svc: Service, v: int :: Honours(w.env, svc, v) <==> svc.Accepts(v, w.env.time);
  }

  lemma GoalsAtExact(st: Static, w: World, objectives: seq<Objective>)
    ensures forall o :: o in GoalsAt(st, w, objectives) <==> o in objectives && Violated(st, Now, w, o)
  {
    forall o
      ensures GoalMet(st, w, o) <==> Violated(st, Now, w, o)
    {
      GoalMetIsViolation(st, w, o);
    }
  }

  // ---------------------------------------------------------------- the cap

  function Cap(maxStates: nat): nat { if maxStates == 0 then 1 else maxStates }

  // ---------------------------------------------------------------- possible histories

  ghost predicate Successor(inp: Input, limit: nat, s: RefState, t: RefState)
    requires inp.st.api != []
  {
    exists act :: act in RefActs(inp.st, limit, s, Some(inp.historyStart)) && t == RefDo(inp.st, s, act)
  }

  function Join(a: Att, b: Att): Att { Att(a.creds + b.creds, a.pods + b.pods, a.ctrls + b.ctrls, a.know + b.know) }

  /** Every item of `a` was held in some history the explorer can reach. */
  ghost predicate Gained(inp: Input, view: Perspective, limit: nat, a: Att)
    requires inp.st.api != []
  {
    && (forall c :: c in a.creds ==> exists s :: RefHistoryReach(inp, view, limit, s) && c in s.world.att.creds)
    && (forall u :: u in a.pods ==> exists s :: RefHistoryReach(inp, view, limit, s) && u in s.world.att.pods)
    && (forall c :: c in a.ctrls ==> exists s :: RefHistoryReach(inp, view, limit, s) && c in s.world.att.ctrls)
    && (forall k :: k in a.know ==> exists s :: RefHistoryReach(inp, view, limit, s) && k in s.world.att.know)
  }

  lemma JoinGained(inp: Input, view: Perspective, limit: nat, a: Att, s: RefState)
    requires inp.st.api != [] && Gained(inp, view, limit, a) && RefHistoryReach(inp, view, limit, s)
    ensures Gained(inp, view, limit, Join(a, s.world.att))
  {
    hide RefHistoryReach;
  }

  lemma HistoryStartReached(inp: Input, view: Perspective, limit: nat)
    requires inp.st.api != []
    ensures RefHistoryReach(inp, view, limit, RefHistoryStart(inp, view))
  {
    assert RefRunActs(inp.st, limit, Some(inp.historyStart), RefHistoryStart(inp, view), []) == Some(RefHistoryStart(inp, view));
  }

  lemma SuccessorReached(inp: Input, view: Perspective, limit: nat, s: RefState, t: RefState)
    requires inp.st.api != [] && RefHistoryReach(inp, view, limit, s) && Successor(inp, limit, s, t)
    ensures RefHistoryReach(inp, view, limit, t)
  {
    hide RefActs, RefDo;
    var acts :| RefRunActs(inp.st, limit, Some(inp.historyStart), RefHistoryStart(inp, view), acts) == Some(s);
    var act :| act in RefActs(inp.st, limit, s, Some(inp.historyStart)) && t == RefDo(inp.st, s, act);
    assert (acts + [act])[..|acts + [act]| - 1] == acts;
    assert RefRunActs(inp.st, limit, Some(inp.historyStart), RefHistoryStart(inp, view), acts + [act]) == Some(t);
  }

  ghost predicate ClosedUnder(inp: Input, limit: nat, seen: set<RefState>)
    requires inp.st.api != []
  {
    forall s, t :: s in seen && Successor(inp, limit, s, t) ==> t in seen
  }

  lemma {:induction false} ClosedHoldsRuns(inp: Input, view: Perspective, limit: nat, seen: set<RefState>, acts: seq<Act>)
    requires inp.st.api != [] && RefHistoryStart(inp, view) in seen && ClosedUnder(inp, limit, seen)
    requires RefRunActs(inp.st, limit, Some(inp.historyStart), RefHistoryStart(inp, view), acts).Some?
    ensures RefRunActs(inp.st, limit, Some(inp.historyStart), RefHistoryStart(inp, view), acts).value in seen
  {
    hide RefActs, RefDo, RefHistoryStart;
    if acts != [] {
      ClosedHoldsRuns(inp, view, limit, seen, acts[..|acts| - 1]);
      var s := RefRunActs(inp.st, limit, Some(inp.historyStart), RefHistoryStart(inp, view), acts[..|acts| - 1]).value;
      assert Successor(inp, limit, s, RefDo(inp.st, s, acts[|acts| - 1]));
    }
  }

  lemma ClosedHoldsAll(inp: Input, view: Perspective, limit: nat, seen: set<RefState>)
    requires inp.st.api != [] && RefHistoryStart(inp, view) in seen && ClosedUnder(inp, limit, seen)
    ensures forall s :: RefHistoryReach(inp, view, limit, s) ==> s in seen
  {
    hide RefRunActs, ClosedUnder, RefHistoryStart;
    forall s | RefHistoryReach(inp, view, limit, s)
      ensures s in seen
    {
      var acts :| RefRunActs(inp.st, limit, Some(inp.historyStart), RefHistoryStart(inp, view), acts) == Some(s);
      ClosedHoldsRuns(inp, view, limit, seen, acts);
    }
  }

  /** The states one attacker step away, in some order. */
  method HistorySteps(inp: Input, limit: nat, s: RefState) returns (next: seq<RefState>)
    requires inp.st.api != []
    ensures forall t :: t in next <==> Successor(inp, limit, s, t)
  {
    hide RefActs, RefDo;
    var todo := RefActs(inp.st, limit, s, Some(inp.historyStart));
    ghost var done: set<Act> := {};
    next := [];
    while todo != {}
      invariant done + todo == RefActs(inp.st, limit, s, Some(inp.historyStart))
      invariant forall t :: t in next <==> exists act :: act in done && t == RefDo(inp.st, s, act)
      decreases todo
    {
      var act :| act in todo;
      next := next + [RefDo(inp.st, s, act)];
      todo := todo - {act};
      done := done + {act};
    }
    assert done == RefActs(inp.st, limit, s, Some(inp.historyStart));
  }

  /** Adds the unseen ones of `next`, until the cap. The history search gives up at the cap with
      any successor still to look at (`eager`), the main search only with an unseen one. */
  method Enqueue<S(==)>(next: seq<S>, seen0: set<S>, queue0: seq<S>, maxStates: nat, eager: bool)
    returns (seen: set<S>, queue: seq<S>, whole: bool)
    requires |seen0| <= Cap(maxStates)
    ensures seen0 <= seen && |seen| <= Cap(maxStates) && queue0 <= queue
    ensures forall t :: t in seen ==> t in seen0 || (t in next && t in queue)
    ensures forall t :: t in queue ==> t in queue0 || (t in next && t in seen)
    ensures whole ==> forall t :: t in next ==> t in seen
    ensures !eager && (forall t :: t in next ==> t in seen0) ==> whole
    ensures !whole ==> |seen| >= maxStates
    ensures |queue| - |queue0| == |seen| - |seen0|
  {
    seen, queue, whole := seen0, queue0, true;
    for i := 0 to |next|
      invariant seen0 <= seen && |seen| <= Cap(maxStates) && queue0 <= queue && whole
      invariant forall t :: t in seen ==> t in seen0 || (t in next && t in queue)
      invariant forall t :: t in queue ==> t in queue0 || (t in next && t in seen)
      invariant forall t :: t in next[..i] ==> t in seen
      invariant |queue| - |queue0| == |seen| - |seen0|
    {
      if |seen| >= maxStates && (eager || next[i] !in seen) {
        whole := false;
        return;
      }
      if next[i] !in seen {
        seen := seen + {next[i]};
        queue := queue + [next[i]];
      }
      assert next[..i + 1] == next[..i] + [next[i]];
    }
    assert next[..|next|] == next;
  }

  /** The union of what the attacker holds over the histories visited; when the search is
      complete, over all histories the explorer can reach. */
  method SearchHistories(inp: Input, view: Perspective, limit: nat, maxStates: nat) returns (union: Att, complete: bool)
    requires inp.st.api != []
    ensures Gained(inp, view, limit, union)
    ensures complete ==> forall s :: RefHistoryReach(inp, view, limit, s) ==> Within(s.world.att, union)
  {
    hide RefHistoryReach, Successor, RefHistoryStart, Gained;
    var start := RefHistoryStart(inp, view);
    var seen, queue := {start}, [start];
    union, complete := start.world.att, true;
    HistoryStartReached(inp, view, limit);
    StartGained(inp, view, limit);
    while queue != []
      invariant start in seen && |seen| <= Cap(maxStates)
      invariant forall s :: s in seen ==> RefHistoryReach(inp, view, limit, s)
      invariant forall s :: s in queue ==> s in seen
      invariant Gained(inp, view, limit, union)
      invariant forall s :: s in seen ==> s in queue || Within(s.world.att, union)
      invariant complete ==> forall s, t :: s in seen && s !in queue && Successor(inp, limit, s, t) ==> t in seen
      decreases Cap(maxStates) - |seen|, |queue|
    {
      var s := queue[0];
      var rest := queue[1..];
      assert queue == [s] + rest;
      JoinGained(inp, view, limit, union, s);
      union := Join(union, s.world.att);
      var next := HistorySteps(inp, limit, s);
      forall t | t in next
        ensures RefHistoryReach(inp, view, limit, t)
      {
        SuccessorReached(inp, view, limit, s, t);
      }
      var whole;
      seen, queue, whole := Enqueue(next, seen, rest, maxStates, true);
      if !whole { complete := false; }
    }
    if complete {
      ClosedHoldsAll(inp, view, limit, seen) by { assert ClosedUnder(inp, limit, seen); }
    }
  }

  lemma StartGained(inp: Input, view: Perspective, limit: nat)
    requires inp.st.api != [] && RefHistoryReach(inp, view, limit, RefHistoryStart(inp, view))
    ensures Gained(inp, view, limit, RefHistoryStart(inp, view).world.att)
  {
    hide RefHistoryReach, RefHistoryStart;
  }

  // ---------------------------------------------------------------- the main search

  ghost predicate Visits(inp: Input, limit: nat, a: Att, s: RefStage)
    requires inp.st.api != []
  {
    exists moves :: RefRun(inp.st, limit, inp.actions, RefStart(inp, a), moves) == Some(s)
  }

  ghost predicate Next(inp: Input, limit: nat, s: RefStage, t: RefStage)
    requires inp.st.api != []
  {
    exists m :: RefMove(inp.st, limit, inp.actions, s, m) == Some(t)
  }

  lemma StartVisited(inp: Input, limit: nat, a: Att)
    requires inp.st.api != []
    ensures Visits(inp, limit, a, RefStart(inp, a))
  {
    RefRunNone(inp.st, limit, inp.actions, RefStart(inp, a));
  }

  lemma NextVisited(inp: Input, limit: nat, a: Att, s: RefStage, t: RefStage)
    requires inp.st.api != [] && Visits(inp, limit, a, s) && Next(inp, limit, s, t)
    ensures Visits(inp, limit, a, t)
  {
    hide RefRun, RefMove, RefStart;
    var moves :| RefRun(inp.st, limit, inp.actions, RefStart(inp, a), moves) == Some(s);
    var m :| RefMove(inp.st, limit, inp.actions, s, m) == Some(t);
    RefRunExtend(inp.st, limit, inp.actions, RefStart(inp, a), moves, m);
    assert RefRun(inp.st, limit, inp.actions, RefStart(inp, a), moves + [m]) == Some(t);
  }

  ghost predicate ClosedUnderNext(inp: Input, limit: nat, seen: set<RefStage>)
    requires inp.st.api != []
  {
    forall s, t :: s in seen && Next(inp, limit, s, t) ==> t in seen
  }

  lemma {:induction false} ClosedHoldsMoves(inp: Input, limit: nat, a: Att, seen: set<RefStage>, moves: seq<Move>)
    requires inp.st.api != [] && RefStart(inp, a) in seen && ClosedUnderNext(inp, limit, seen)
    requires RefRun(inp.st, limit, inp.actions, RefStart(inp, a), moves).Some?
    ensures RefRun(inp.st, limit, inp.actions, RefStart(inp, a), moves).value in seen
  {
    hide RefMove, RefStart;
    if moves != [] {
      ClosedHoldsMoves(inp, limit, a, seen, moves[..|moves| - 1]);
      var s := RefRun(inp.st, limit, inp.actions, RefStart(inp, a), moves[..|moves| - 1]).value;
      var t := RefRun(inp.st, limit, inp.actions, RefStart(inp, a), moves).value;
      assert RefMove(inp.st, limit, inp.actions, s, moves[|moves| - 1]) == Some(t);
    }
  }

  lemma ClosedHoldsVisits(inp: Input, limit: nat, a: Att, seen: set<RefStage>)
    requires inp.st.api != [] && RefStart(inp, a) in seen && ClosedUnderNext(inp, limit, seen)
    ensures forall s :: Visits(inp, limit, a, s) ==> s in seen
  {
    hide RefRun, ClosedUnderNext, RefStart;
    forall s | Visits(inp, limit, a, s)
      ensures s in seen
    {
      var moves :| RefRun(inp.st, limit, inp.actions, RefStart(inp, a), moves) == Some(s);
      ClosedHoldsMoves(inp, limit, a, seen, moves);
    }
  }

  /** Every attacker step from `s`, then the next defender action if one is left. */
  method NextStages(inp: Input, limit: nat, s: RefStage) returns (next: seq<RefStage>)
    requires inp.st.api != []
    ensures forall t :: t in next <==> Next(inp, limit, s, t)
  {
    hide RefActs, RefDo, RefDefend;
    var todo := RefActs(inp.st, limit, s.state, None);
    ghost var done: set<Act> := {};
    next := [];
    while todo != {}
      invariant done + todo == RefActs(inp.st, limit, s.state, None)
      invariant forall t :: t in next <==> exists act :: act in done && t == RefStage(s.phase, RefDo(inp.st, s.state, act))
      decreases todo
    {
      var act :| act in todo;
      next := next + [RefStage(s.phase, RefDo(inp.st, s.state, act))];
      todo := todo - {act};
      done := done + {act};
    }
    assert done == RefActs(inp.st, limit, s.state, None);
    if s.phase < |inp.actions| { next := next + [RefStage(s.phase + 1, RefDefend(s.state, inp.actions[s.phase]))]; }
    AllMoves(inp, limit, s, next);
  }

  lemma AllMoves(inp: Input, limit: nat, s: RefStage, next: seq<RefStage>)
    requires inp.st.api != []
    requires forall t :: t in next <==>
      || (exists act :: act in RefActs(inp.st, limit, s.state, None) && t == RefStage(s.phase, RefDo(inp.st, s.state, act)))
      || (s.phase < |inp.actions| && t == RefStage(s.phase + 1, RefDefend(s.state, inp.actions[s.phase])))
    ensures forall t :: t in next <==> Next(inp, limit, s, t)
  {
    hide RefActs, RefDo, RefDefend;
    forall t | t in next
      ensures Next(inp, limit, s, t)
    {
      if s.phase < |inp.actions| && t == RefStage(s.phase + 1, RefDefend(s.state, inp.actions[s.phase])) {
        assert RefMove(inp.st, limit, inp.actions, s, Defender) == Some(t);
      } else {
        var act :| act in RefActs(inp.st, limit, s.state, None) && t == RefStage(s.phase, RefDo(inp.st, s.state, act));
        assert RefMove(inp.st, limit, inp.actions, s, Attacker(act)) == Some(t);
      }
    }
  }

  lemma FoundIsReached(inp: Input, limit: nat, a: Att, o: Objective)
    requires inp.st.api != []
    ensures RefReaches(inp, limit, a, o) <==>
      exists s :: Visits(inp, limit, a, s) && s.phase == |inp.actions| && Violated(inp.st, Now, s.state.world, o)
  {
    hide RefRun, Violated, RefStart;
    if RefReaches(inp, limit, a, o) {
      var moves :| RefViolates(inp, limit, a, moves, o);
      var s := RefRun(inp.st, limit, inp.actions, RefStart(inp, a), moves).value;
      assert Visits(inp, limit, a, s);
    }
    if s :| Visits(inp, limit, a, s) && s.phase == |inp.actions| && Violated(inp.st, Now, s.state.world, o) {
      var moves :| RefRun(inp.st, limit, inp.actions, RefStart(inp, a), moves) == Some(s);
      assert RefViolates(inp, limit, a, moves, o);
    }
  }

  ghost predicate FindsReached(inp: Input, limit: nat, a: Att, found: set<Objective>)
    requires inp.st.api != []
  {
    forall o :: o in found <==> o in inp.objectives && RefReaches(inp, limit, a, o)
  }

  /** The main phase: every interleaving of attacker steps and defender actions from `a`. */
  method SearchRuns(inp: Input, limit: nat, a: Att, maxStates: nat) returns (r: Exploration)
    requires inp.st.api != []
    ensures r.states <= Cap(maxStates)
    ensures forall o :: o in r.reachable ==> o in inp.objectives && RefReaches(inp, limit, a, o)
    ensures r.complete ==> forall o :: o in inp.objectives && RefReaches(inp, limit, a, o) ==> o in r.reachable
  {
    hide Visits, Next, RefStart, Violated, GoalsAt, RefReaches;
    var start := RefStart(inp, a);
    var seen, queue := {start}, [start];
    var found: set<Objective> := {};
    var complete := true;
    StartVisited(inp, limit, a);
    while queue != [] && complete
      invariant start in seen && |seen| <= Cap(maxStates)
      invariant forall s :: s in seen ==> Visits(inp, limit, a, s)
      invariant forall s :: s in queue ==> s in seen
      invariant forall o :: o in found ==> o in inp.objectives && RefReaches(inp, limit, a, o)
      invariant forall s, o ::
        s in seen && s !in queue && s.phase == |inp.actions| && o in inp.objectives && Violated(inp.st, Now, s.state.world, o) ==> o in found
      invariant complete ==> forall s, t :: s in seen && s !in queue && Next(inp, limit, s, t) ==> t in seen
      decreases Cap(maxStates) - |seen|, |queue|
    {
      var s := queue[0];
      var rest := queue[1..];
      assert queue == [s] + rest;
      if s.phase == |inp.actions| {
        GoalsAtExact(inp.st, s.state.world, inp.objectives);
        forall o | o in GoalsAt(inp.st, s.state.world, inp.objectives)
          ensures RefReaches(inp, limit, a, o)
        {
          FoundIsReached(inp, limit, a, o);
        }
        found := found + GoalsAt(inp.st, s.state.world, inp.objectives);
      }
      var next := NextStages(inp, limit, s);
      forall t | t in next
        ensures Visits(inp, limit, a, t)
      {
        NextVisited(inp, limit, a, s, t);
      }
      seen, queue, complete := Enqueue(next, seen, rest, maxStates, false);
    }
    r := Exploration(found, |seen|, complete);
    if complete {
      ClosedHoldsVisits(inp, limit, a, seen) by { assert ClosedUnderNext(inp, limit, seen); }
      forall o | o in inp.objectives && RefReaches(inp, limit, a, o)
        ensures o in found
      {
        FoundIsReached(inp, limit, a, o);
        var s :| Visits(inp, limit, a, s) && s.phase == |inp.actions| && Violated(inp.st, Now, s.state.world, o);
      }
    }
  }

  // ---------------------------------------------------------------- a view, from start to end

  /** What the explorer reaches is attainable, whatever histories its union came from. */
  lemma ReachedIsAttainable(inp: Input, view: Perspective, limit: nat, a: Att, o: Objective)
    requires WellFormed(inp) && inp.st.api != [] && RefReaches(inp, limit, a, o) && HistoryGain(inp, view, a)
    ensures Attainable(inp, view, o)
  {
    hide RefRun, Run, Violated, HistoryGain, RefStart, Reconcile, Plain;
    var moves :| RefViolates(inp, limit, a, moves, o);
    RefRunIsRun(inp, limit, a, moves);
    assert AttainedBy(inp, view, a, moves, o);
  }

  lemma AttainableIsReached(inp: Input, view: Perspective, limit: nat, a: Att, o: Objective)
    requires WellFormed(inp) && inp.st.api != [] && limit >= 1 && RefHistoryUnion(inp, view, limit, a) && Attainable(inp, view, o)
    ensures RefReaches(inp, limit, a, o)
  {
    hide Run, Violated, HistoryGain, RefHistoryUnion, Plain, Reconcile;
    var g, moves :| AttainedBy(inp, view, g, moves, o);
    ExplorerAttains(inp, view, limit, a, g, moves, o);
  }

  lemma GainedIsGain(inp: Input, view: Perspective, limit: nat, a: Att)
    requires WellFormed(inp) && inp.st.api != [] && HistoryRuns(inp, view, Full) && Gained(inp, view, limit, a)
    ensures HistoryGain(inp, view, a)
  {
    hide RefHistoryReach, HistoryReach, HistoryRuns, Plain;
    forall s | RefHistoryReach(inp, view, limit, s)
      ensures HistoryReach(inp, view, s.world)
    {
      RefReachIsReach(inp, view, limit, s);
    }
  }

  /** Explores one view. Every objective reported is attainable, complete or not; a complete
      exploration with room for one workload per account reports every attainable one, so it says
      the same for every larger limit; and the number of states stays within the cap. */
  method ExploreView(inp: Input, view: Perspective, limit: nat, maxStates: nat) returns (r: Exploration)
    requires WellFormed(inp)
    ensures inp.st.api != []
    ensures r.states <= Cap(maxStates)
    ensures forall o :: o in r.reachable ==> o in inp.objectives && Attainable(inp, view, o)
    ensures r.complete && limit >= 1 ==> forall o :: o in inp.objectives ==> (o in r.reachable <==> Attainable(inp, view, o))
    ensures r.complete ==> exists a :: RefHistoryUnion(inp, view, limit, a) && FindsReached(inp, limit, a, r.reachable)
  {
    hide Plain, RefReaches, RefHistoryReach, Attainable, HistoryGain, HistoryRuns, Gained;
    NonEmptyApi(inp);
    var a, whole := View(InitialState(inp, view, Full)).att, true;
    if HistoryRuns(inp, view, Full) {
      a, whole := SearchHistories(inp, view, limit, maxStates);
      GainedIsGain(inp, view, limit, a);
      if whole { UnionFound(inp, view, limit, a); }
    } else {
      PlainStart(inp, view, limit, a);
    }
    r := SearchRuns(inp, limit, a, maxStates);
    r := r.(complete := r.complete && whole);
    forall o | o in r.reachable
      ensures Attainable(inp, view, o)
    {
      ReachedIsAttainable(inp, view, limit, a, o);
    }
    if r.complete && limit >= 1 {
      forall o | o in inp.objectives && Attainable(inp, view, o)
        ensures o in r.reachable
      {
        AttainableIsReached(inp, view, limit, a, o);
      }
    }
  }

  lemma UnionFound(inp: Input, view: Perspective, limit: nat, a: Att)
    requires inp.st.api != [] && HistoryRuns(inp, view, Full) && Gained(inp, view, limit, a)
    requires forall s :: RefHistoryReach(inp, view, limit, s) ==> Within(s.world.att, a)
    ensures RefHistoryUnion(inp, view, limit, a)
  {
    hide RefHistoryReach, HistoryRuns;
  }

  lemma PlainStart(inp: Input, view: Perspective, limit: nat, a: Att)
    requires inp.st.api != [] && !HistoryRuns(inp, view, Full) && a == View(InitialState(inp, view, Full)).att
    ensures RefHistoryUnion(inp, view, limit, a) && HistoryGain(inp, view, a)
  {
    hide HistoryRuns;
  }

  /** The differential comparison: whenever the engine stays within bounds and the exploration is
      complete, the engine reports nothing the exploration does not, and without clashes the two
      report the same objectives for the view. */
  method Differential(inp: Input, view: Perspective, limit: nat, maxStates: nat) returns (engine: set<Objective>, explorer: set<Objective>, decisive: bool)
    requires WellFormed(inp) && limit >= 1
    ensures decisive ==> engine <= explorer && (ClashFree(inp, view) ==> engine == explorer)
  {
    hide Plain, Finished, Attainable, RefReaches, RefHistoryUnion, ClashFree;
    NonEmptyApi(inp);
    PlainParses(inp);
    var ours := RunView(inp, view, Full);
    var theirs := ExploreView(inp, view, limit, maxStates);
    engine := set o | o in inp.objectives && Goal(o) in ours.goals;
    explorer := theirs.reachable;
    decisive := !ours.boundsExceeded && theirs.complete;
    if decisive { AllGoalsAttainable(inp, view, ours); }
  }
}
