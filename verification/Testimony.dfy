/** The environments the replay rebuilds from a witness: exactly the engine's, less the created
    objects the witness does not use; in history, at least those. */
module Testimony {
  import opened Model
  import opened Semantics
  import opened Attack
  import opened Rules
  import opened Shape
  import opened Fixpoint
  import opened Case
  import opened Interleavings
  import opened Creations
  import opened Replay
  import opened Witnesses

  // ---------------------------------------------------------------- what a witness declares

  /** The objects created in a witness. */
  function Roots(steps: seq<Step>): set<Uid> {
    set s | s in steps && Declared(s).Some? :: Declared(s).value
  }

  function RootsAt(steps: seq<Step>, i: int): set<Uid> {
    set u | u in Roots(steps) && ModelRoot(u) && u.interval == i
  }

  lemma RootsAreModels(steps: seq<Step>)
    ensures forall u :: u in Roots(steps) ==> ModelRoot(u) && Root(u) == u
  {
  }

  lemma RootsPlus(steps: seq<Step>)
    requires steps != []
    ensures var d := Declared(steps[|steps| - 1]);
      Roots(steps) == Roots(steps[..|steps| - 1]) + (if d.Some? then {d.value} else {})
  {
    hide Declared;
    var init, last := steps[..|steps| - 1], steps[|steps| - 1];
    assert steps == init + [last];
    forall u | u in Roots(steps)
      ensures u in Roots(init) || Declared(last) == Some(u)
    {
      var s :| s in steps && Declared(s).Some? && Declared(s).value == u;
      assert s in init || s == last;
    }
  }

  /** A UID is declared at most once: it is named by the fact. */
  lemma DeclaredOnce(steps: seq<Step>)
    requires steps != [] && Distinct(steps) && Declared(steps[|steps| - 1]).Some?
    ensures Declared(steps[|steps| - 1]).value !in Roots(steps[..|steps| - 1])
  {
    var init, last := steps[..|steps| - 1], steps[|steps| - 1];
    forall s | s in init && Declared(s).Some?
      ensures Declared(s).value != Declared(last).value
    {
      var j :| 0 <= j < |init| && init[j] == s;
      assert steps[j].fact != last.fact;
    }
  }

  /** Adding the declared objects one by one grows the environment by their set. */
  lemma {:induction false} DeclaredGrown(e: Env, steps: seq<Step>, i: int)
    requires Shaped(e) && Reconciled(e) && Distinct(steps) && Fresh(e, RootsAt(steps, i))
    ensures AddAll(e, DeclaredAt(steps, i)) == Grown(e, RootsAt(steps, i))
  {
    hide Shaped, Reconciled, Grown, AddCreated, Declared, Roots;
    if steps == [] {
      NoRoots();
      assert RootsAt([], i) == {};
      GrownNothing(e);
    } else {
      var init, last := steps[..|steps| - 1], Declared(steps[|steps| - 1]);
      RootsPlus(steps);
      RootsAreModels(steps);
      DeclaredGrown(e, init, i);
      if last.Some? && last.value.interval == i {
        var u := last.value;
        DeclaredOnce(steps);
        assert RootsAt(steps, i) == RootsAt(init, i) + {u};
        AddOne(e, RootsAt(init, i), u);
        var us := DeclaredAt(init, i);
        assert (us + [u])[..|us + [u]| - 1] == us;
      } else {
        assert RootsAt(steps, i) == RootsAt(init, i);
      }
    }
  }

  lemma NoRoots()
    ensures Roots([]) == {}
  {
  }

  // ---------------------------------------------------------------- the main phases

  lemma RestrictShaped(e: Env, roots: set<Uid>)
    requires Shaped(e)
    ensures Shaped(Restrict(e, roots))
    ensures Reconciled(e) ==> Reconciled(Restrict(e, roots))
  {
    hide Keeps;
    var r := Restrict(e, roots);
    forall u | u in r.pods && Created(u)
      ensures ShapedPod(r, u)
    {
      assert ShapedPod(e, u);
      if u.Replica? { OwnerKept(e, roots, u); }
    }
    forall c | c in r.ctrls && Owns(e.pods, c)
      ensures Owns(r.pods, c)
    {
      var u :| u in e.pods && e.pods[u].owner == Some(c);
      OwnerKept(e, roots, u);
      assert u in r.pods;
    }
  }

  lemma RestrictNative(e: Env, roots: set<Uid>)
    requires forall u :: u in e.pods || u in e.ctrls || u in e.counters ==> !Created(u)
    ensures Restrict(e, roots) == e
  {
    assert KeptOf(e.pods, roots) == e.pods;
    assert KeptOf(e.ctrls, roots) == e.ctrls;
    assert KeptOf(e.counters, roots) == e.counters;
  }

  /** Where interval `i` of the engine's run starts. */
  function StartEnv(inp: Input, stages: seq<State>, i: nat): Env
    requires i <= |inp.actions| && i <= |stages|
  {
    if i == 0 then Reconcile(inp.env) else Reconcile(Defend(stages[i - 1].env, inp.actions[i - 1]))
  }

  /** Objects of the engine's own making carry an earlier interval when an interval starts. */
  ghost predicate Older(e: Env, i: int) {
    && (forall u :: ModelRoot(u) && (u in e.pods || u in e.ctrls) ==> u.interval < i)
    && (forall u :: u in e.pods ==> !u.ModelDeploy?) && (forall c :: c in e.ctrls ==> !c.ModelPod?)
  }

  lemma RootInterval(i: int, s: State, u: Uid)
    requires Shaped(s.env) && ModelsKnown(i, s) && ModelRoot(u) && (u in s.env.pods || u in s.env.ctrls)
    ensures u.interval <= i && (u in s.env.pods ==> !u.ModelDeploy?) && (u in s.env.ctrls ==> !u.ModelPod?)
  {
    if u in s.env.pods { assert ShapedPod(s.env, u); }
    if u.ModelPod? { assert u == ModelPod(u.account, u.interval); } else { assert u == ModelDeploy(u.account, u.interval); }
  }

  lemma NextOlder(i: int, s: State, a: Action)
    requires Good(i, s)
    ensures Older(Reconcile(Defend(s.env, a)), i + 1)
  {
    hide CredsKnown, Reconcile, Defend, ModelsKnown, Shaped;
    var d := Defend(s.env, a);
    DefendShrinks(s.env, a);
    ReconcileKeepsPods(d);
    ReconcileOnlyPods(d);
    forall u | ModelRoot(u) && (u in Reconcile(d).pods || u in Reconcile(d).ctrls)
      ensures u.interval < i + 1 && (u in Reconcile(d).pods ==> !u.ModelDeploy?) && (u in Reconcile(d).ctrls ==> !u.ModelPod?)
    {
      RootInterval(i, s, u);
    }
  }

  lemma FirstOlder(inp: Input)
    requires WellFormed(inp)
    ensures Older(Reconcile(inp.env), 0) && Shaped(Reconcile(inp.env)) && Reconciled(Reconcile(inp.env))
    ensures forall roots :: Restrict(Reconcile(inp.env), roots) == Reconcile(inp.env)
  {
    hide Reconcile;
    MainEnvGood(inp);
    SameCtrls(inp);
    NativeCounts(inp);
    forall roots
      ensures Restrict(Reconcile(inp.env), roots) == Reconcile(inp.env)
    {
      RestrictNative(Reconcile(inp.env), roots);
    }
  }

  lemma NativeCounts(inp: Input)
    requires WellFormed(inp)
    ensures forall c :: c in Reconcile(inp.env).counters ==> !Created(c)
  {
  }

  /** Each interval starts settled and grows by objects of its own. */
  lemma StageGrows(inp: Input, start: State, stages: seq<State>, k: nat) returns (made: set<Uid>)
    requires WellFormed(inp) && Ladder(inp, Now, start, stages) && k <= |inp.actions|
    requires Good(0, start) && start.env == Reconcile(inp.env)
    ensures var e := StartEnv(inp, stages, k);
      && Shaped(e) && Reconciled(e) && Older(e, k) && Fresh(e, made) && stages[k].env == Grown(e, made)
    ensures forall u :: u in made ==> u.interval == k
  {
    hide Good, EnvInv, Reconcile, Defend, Grown, Shaped, Reconciled, Closed, Plain;
    NonEmptyApi(inp);
    var s := if k == 0 then start else NextState(stages[k - 1], inp.actions[k - 1]);
    if k == 0 {
      FirstOlder(inp);
    } else {
      LadderGood(inp, Now, start, stages, k - 1);
      StartSettled(inp, stages[k - 1], k - 1);
      assert Saturates(Ctx(inp.st, Now, (k - 1) + 1), NextState(stages[k - 1], inp.actions[k - 1]), stages[(k - 1) + 1]);
    }
    var fs :| FireAll(Ctx(inp.st, Now, k), s, fs) == Some(stages[k]);
    made := FiringsGrown(Ctx(inp.st, Now, k), s, fs);
  }

  lemma StartSettled(inp: Input, s: State, k: nat)
    requires WellFormed(inp) && k < |inp.actions| && StageGood(inp, s, k)
    ensures var e := Reconcile(Defend(s.env, inp.actions[k])); Shaped(e) && Reconciled(e) && Older(e, k + 1)
  {
    hide CredsKnown, Reconcile, Defend, ModelsKnown;
    DefendKeepsShape(s.env, inp.actions[k]);
    ReconcileShapes(Defend(s.env, inp.actions[k]));
    ReconcileServesAll(Defend(s.env, inp.actions[k]));
    NextOlder(k, s, inp.actions[k]);
  }

  /** Every object the witness declares is there at the end of its interval. */
  ghost predicate RootsLive(inp: Input, stages: seq<State>, steps: seq<Step>) {
    && |stages| == |inp.actions| + 1
    && forall u :: u in Roots(steps) && 0 <= u.interval <= |inp.actions| ==> LiveIn(stages[u.interval].env, u)
  }

  predicate LiveIn(e: Env, u: Uid) { (u.ModelPod? && u in e.pods) || (u.ModelDeploy? && u in e.ctrls) }

  lemma RootsMade(e: Env, made: set<Uid>, steps: seq<Step>, k: int)
    requires Older(e, k) && Fresh(e, made) && (forall u :: u in made ==> u.interval == k)
    requires forall u :: u in RootsAt(steps, k) ==> LiveIn(Grown(e, made), u)
    ensures made * Roots(steps) == RootsAt(steps, k)
  {
    forall u | u in RootsAt(steps, k)
      ensures u in made
    {
      if u.ModelPod? { InPodUids(made, u); }
    }
  }

  /** The replayed environment of an interval is the engine's without the objects the witness
      does not use. */
  lemma {:induction false} ReplayRestricts(inp: Input, start: State, stages: seq<State>, steps: seq<Step>, k: nat)
    requires WellFormed(inp) && Ladder(inp, Now, start, stages) && k <= |inp.actions|
    requires Good(0, start) && start.env == Reconcile(inp.env)
    requires Distinct(steps) && RootsLive(inp, stages, steps)
    ensures ReplayEnv(inp, steps, k) == Restrict(stages[k].env, Roots(steps))
  {
    hide Good, EnvInv, Reconcile, Defend, Grown, Shaped, Reconciled, Restrict, Roots, RootsAt, Ladder, AddAll, DeclaredAt, Plain;
    var roots, e := Roots(steps), StartEnv(inp, stages, k);
    var made := StageGrows(inp, start, stages, k);
    if k > 0 { ReplayRestricts(inp, start, stages, steps, k - 1); }
    BaseRestricts(inp, start, stages, steps, k);
    DeclaredLive(inp, stages, steps, k);
    RootsMade(e, made, steps, k);
    RestrictGrown(e, made, roots);
    RestrictShaped(e, roots);
    FreshRestricted(e, made, roots);
    DeclaredGrown(Restrict(e, roots), steps, k);
  }

  lemma DeclaredLive(inp: Input, stages: seq<State>, steps: seq<Step>, k: nat)
    requires RootsLive(inp, stages, steps) && k <= |inp.actions|
    ensures forall u :: u in RootsAt(steps, k) ==> LiveIn(stages[k].env, u)
  {
  }

  lemma FreshRestricted(e: Env, made: set<Uid>, roots: set<Uid>)
    requires Fresh(e, made)
    ensures Fresh(Restrict(e, roots), made * roots)
  {
  }

  lemma BaseRestricts(inp: Input, start: State, stages: seq<State>, steps: seq<Step>, k: nat)
    requires WellFormed(inp) && Ladder(inp, Now, start, stages) && k <= |inp.actions|
    requires Good(0, start) && start.env == Reconcile(inp.env)
    requires k > 0 ==> k <= |stages| && ReplayEnv(inp, steps, k - 1) == Restrict(stages[k - 1].env, Roots(steps))
    ensures |stages| == |inp.actions| + 1
    ensures ReplayBase(inp, steps, k) == Restrict(StartEnv(inp, stages, k), Roots(steps))
  {
    hide Good, EnvInv, Reconcile, Defend, Restrict, Roots, Plain, ReplayEnv, Ladder;
    NonEmptyApi(inp);
    LadderLength(inp, Now, start, stages);
    if k == 0 {
      FirstOlder(inp);
    } else {
      LadderGood(inp, Now, start, stages, k - 1);
      StageRestricts(inp, stages[k - 1], k - 1, Roots(steps));
    }
  }

  lemma StageRestricts(inp: Input, s: State, k: nat, roots: set<Uid>)
    requires WellFormed(inp) && k < |inp.actions| && StageGood(inp, s, k)
    ensures Restrict(Reconcile(Defend(s.env, inp.actions[k])), roots) == Reconcile(Defend(Restrict(s.env, roots), inp.actions[k]))
  {
    hide CredsKnown, Reconcile, Defend, ModelsKnown, Restrict;
    DefendKeepsShape(s.env, inp.actions[k]);
    RestrictDefend(s.env, roots, inp.actions[k]);
    RestrictReconcile(Defend(s.env, inp.actions[k]), roots);
  }
}
