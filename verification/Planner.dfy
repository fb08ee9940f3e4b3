/** The containment planner: uniform-cost search over sequences of distinct candidate actions
    (packages/afterlock/planner.py). Sequences are lists of candidate positions; the verdict of a
    full re-analysis is a function of the sequence. */
module Planner {
  import opened Model
  import opened Ordering

  // ---------------------------------------------------------------- costs

  datatype Kind =
    | KindRemoveBinding | KindDeletePod | KindDeleteController | KindDeletePodsExcept
    | KindDeleteControllersExcept | KindRotate | KindDeleteServiceAccount | KindWait

  function KindOf(a: Action): Kind {
    match a
    case RemoveBinding(_) => KindRemoveBinding
    case DeletePod(_) => KindDeletePod
    case DeleteController(_) => KindDeleteController
    case DeletePodsExcept(_, _) => KindDeletePodsExcept
    case DeleteControllersExcept(_, _) => KindDeleteControllersExcept
    case DeleteServiceAccount(_) => KindDeleteServiceAccount
    case Rotate(_) => KindRotate
    case Wait(_) => KindWait
  }

  function DefaultCost(k: Kind): real {
    match k
    case KindRemoveBinding => 1.0
    case KindDeletePod => 1.0
    case KindDeleteController => 1.0
    case KindDeletePodsExcept => 2.0
    case KindDeleteControllersExcept => 2.0
    case KindRotate => 3.0
    case KindDeleteServiceAccount => 4.0
    case KindWait => 0.0
  }

  /** A wait also costs its length, 900 seconds to the unit. */
  function ActionCost(a: Action, costs: map<Kind, real>): (c: real)
    ensures (forall k :: k in costs ==> costs[k] >= 0.0) ==> c >= 0.0
  {
    var base := if KindOf(a) in costs then costs[KindOf(a)] else DefaultCost(KindOf(a));
    if a.Wait? then base + a.seconds as real / 900.0 else base
  }

  datatype Candidate = Candidate(action: Action, text: string)

  datatype Verdict = Verdict(contained: bool, preserved: bool)

  /** A search problem: candidates, cost overrides, length bound, and what analysis says. */
  datatype Problem = Problem(cands: seq<Candidate>, costs: map<Kind, real>, maxLength: int, judge: seq<Action> -> Verdict)
  {
    predicate NonNegative() { forall k :: k in costs ==> costs[k] >= 0.0 }

    function Longest(): nat { if maxLength < 0 then 0 else maxLength }
  }

  // ---------------------------------------------------------------- sequences of candidates

  predicate Indices(p: Problem, s: seq<nat>) {
    && (forall i :: 0 <= i < |s| ==> s[i] < |p.cands|)
    && (forall i, j :: 0 <= i < j < |s| ==> s[i] != s[j])
  }

  /** The sequences the planner considers. */
  predicate Allowed(p: Problem, s: seq<nat>) { Indices(p, s) && |s| <= p.Longest() }

  function ActionsOf(p: Problem, s: seq<nat>): seq<Action>
    requires Indices(p, s)
  {
    seq(|s|, i requires 0 <= i < |s| => p.cands[s[i]].action)
  }

  function CostOf(p: Problem, s: seq<nat>): real
    requires Indices(p, s)
  {
    if s == [] then 0.0 else CostOf(p, s[..|s| - 1]) + ActionCost(p.cands[s[|s| - 1]].action, p.costs)
  }

  function LabelsOf(p: Problem, s: seq<nat>): seq<string>
    requires Indices(p, s)
  {
    seq(|s|, i requires 0 <= i < |s| => p.cands[s[i]].text)
  }

  function VerdictOf(p: Problem, s: seq<nat>): Verdict
    requires Indices(p, s)
  {
    p.judge(ActionsOf(p, s))
  }

  predicate Contains(p: Problem, s: seq<nat>) { Allowed(p, s) && s != [] && VerdictOf(p, s).contained }

  /** Contained, and every legitimate operation preserved. */
  predicate ValidPlan(p: Problem, s: seq<nat>) { Contains(p, s) && VerdictOf(p, s).preserved }

  // ---------------------------------------------------------------- the heap's order

  predicate LabelsLeq(a: seq<string>, b: seq<string>) {
    a == [] || (b != [] && if a[0] == b[0] then LabelsLeq(a[1..], b[1..]) else TextLeq(a[0], b[0]))
  }

  predicate NumbersLeq(a: seq<nat>, b: seq<nat>) {
    a == [] || (b != [] && (a[0] < b[0] || (a[0] == b[0] && NumbersLeq(a[1..], b[1..]))))
  }

  datatype Entry = Entry(cost: real, labels: seq<string>, idxs: seq<nat>)

  /** Tuples compare by cost, then labels, then positions. */
  predicate Leq(x: Entry, y: Entry) {
    if x.cost != y.cost then x.cost < y.cost
    else if x.labels != y.labels then LabelsLeq(x.labels, y.labels)
    else NumbersLeq(x.idxs, y.idxs)
  }

  function EntryOf(p: Problem, s: seq<nat>): Entry
    requires Indices(p, s)
  {
    Entry(CostOf(p, s), LabelsOf(p, s), s)
  }

  lemma {:induction false} LabelsOrder(a: seq<string>, b: seq<string>, c: seq<string>)
    ensures LabelsLeq(a, a)
    ensures LabelsLeq(a, b) || LabelsLeq(b, a)
    ensures LabelsLeq(a, b) && LabelsLeq(b, a) ==> a == b
    ensures LabelsLeq(a, b) && LabelsLeq(b, c) ==> LabelsLeq(a, c)
  {
    if a != [] { LabelsOrder(a[1..], if b == [] then [] else b[1..], if c == [] then [] else c[1..]); }
    if a != [] && b != [] {
      TextOrder(a[0], b[0], if c == [] then [] else c[0]);
      if a[0] == b[0] && a[1..] == b[1..] { assert a == [a[0]] + a[1..] && b == [b[0]] + b[1..]; }
    }
  }

  lemma {:induction false} NumbersOrder(a: seq<nat>, b: seq<nat>, c: seq<nat>)
    ensures NumbersLeq(a, a)
    ensures NumbersLeq(a, b) || NumbersLeq(b, a)
    ensures NumbersLeq(a, b) && NumbersLeq(b, a) ==> a == b
    ensures NumbersLeq(a, b) && NumbersLeq(b, c) ==> NumbersLeq(a, c)
  {
    if a != [] { NumbersOrder(a[1..], if b == [] then [] else b[1..], if c == [] then [] else c[1..]); }
    if a != [] && b != [] && a[0] == b[0] && a[1..] == b[1..] { assert a == [a[0]] + a[1..] && b == [b[0]] + b[1..]; }
  }

  /** The heap's order is a total order. */
  lemma Order(x: Entry, y: Entry, z: Entry)
    ensures Leq(x, x)
    ensures Leq(x, y) || Leq(y, x)
    ensures Leq(x, y) && Leq(y, x) ==> x == y
    ensures Leq(x, y) && Leq(y, z) ==> Leq(x, z)
  {
    hide LabelsLeq, NumbersLeq;
    LabelsOrder(x.labels, y.labels, z.labels);
    NumbersOrder(x.idxs, y.idxs, z.idxs);
  }

  predicate Less(x: Entry, y: Entry) { Leq(x, y) && x != y }

  lemma {:induction false} PrefixLeq(a: seq<string>, b: seq<string>)
    ensures LabelsLeq(a, a + b)
  {
    if a != [] {
      PrefixLeq(a[1..], b);
      assert (a + b)[1..] == a[1..] + b;
    }
  }

  /** A longer sequence sorts strictly after its prefixes, even when the extra actions are free. */
  lemma {:induction false} LongerIsLater(p: Problem, s: seq<nat>, k: nat)
    requires p.NonNegative() && Indices(p, s) && k <= |s|
    ensures Indices(p, s[..k]) && CostOf(p, s[..k]) <= CostOf(p, s) && Leq(EntryOf(p, s[..k]), EntryOf(p, s))
    ensures k < |s| ==> Less(EntryOf(p, s[..k]), EntryOf(p, s))
    decreases |s|
  {
    if k == |s| {
      assert s[..k] == s;
      Order(EntryOf(p, s), EntryOf(p, s), EntryOf(p, s));
    } else {
      var t := s[..|s| - 1];
      LongerIsLater(p, t, k);
      assert t[..k] == s[..k];
      PrefixLeq(LabelsOf(p, s[..k]), LabelsOf(p, s)[k..]);
      assert LabelsOf(p, s[..k]) + LabelsOf(p, s)[k..] == LabelsOf(p, s);
      assert |LabelsOf(p, s[..k])| != |LabelsOf(p, s)|;
    }
  }

  // ---------------------------------------------------------------- the search

  datatype SearchStatus = OptimalWithinBounds | IncompleteSearch | NoValidPlanWithinBounds

  datatype Plan = Plan(status: SearchStatus, best: Option<seq<nat>>, securityOnly: Option<seq<nat>>, evaluations: nat)

  datatype Outcome = NoCandidates | Planned(plan: Plan)

  /** The least entry leaves the heap. */
  method PopLeast(heap: set<Entry>) returns (least: Entry, rest: set<Entry>)
    requires heap != {}
    ensures least in heap && rest == heap - {least}
    ensures forall x :: x in heap ==> Leq(least, x)
  {
    hide Leq;
    least :| least in heap;
    var todo := heap - {least};
    Order(least, least, least);
    while todo != {}
      invariant todo <= heap && least in heap
      invariant forall x :: x in heap - todo ==> Leq(least, x)
      decreases |todo|
    {
      var x :| x in todo;
      todo := todo - {x};
      forall y | y in heap - todo
        ensures Leq(least, x) ==> Leq(least, y)
        ensures !Leq(least, x) ==> Leq(x, y)
      {
        Order(x, least, y);
        Order(x, x, x);
      }
      if !Leq(least, x) { least := x; }
    }
    rest := heap - {least};
  }

  /** Some prefix of `s` (possibly all of it) waits in the heap. */
  ghost predicate Waiting(p: Problem, heap: set<Entry>, s: seq<nat>)
    requires Indices(p, s)
  {
    exists k :: 0 <= k <= |s| && Indices(p, s[..k]) && EntryOf(p, s[..k]) in heap
  }

  /** The search so far: `popped` in order, and everything else still reachable from the heap. */
  ghost predicate Frontier(p: Problem, heap: set<Entry>, popped: seq<seq<nat>>) {
    && (forall x :: x in heap ==> Allowed(p, x.idxs) && x == EntryOf(p, x.idxs))
    && (forall i :: 0 <= i < |popped| ==> Allowed(p, popped[i]))
    && (forall i, j :: 0 <= i < j < |popped| ==> Less(EntryOf(p, popped[i]), EntryOf(p, popped[j])))
    && (forall i, x :: 0 <= i < |popped| && x in heap ==> Less(EntryOf(p, popped[i]), x))
    && (forall s :: Allowed(p, s) ==> s in popped || Waiting(p, heap, s))
  }

  /** Pushes every extension of `s` by a candidate not in it. */
  method PushExtensions(p: Problem, heap0: set<Entry>, e: Entry) returns (heap: set<Entry>)
    requires Indices(p, e.idxs) && e == EntryOf(p, e.idxs)
    ensures forall x :: x in heap <==> x in heap0 || ExtendsBy(p, e, x)
  {
    hide CostOf, LabelsOf, ActionCost, Indices;
    heap := heap0;
    for j := 0 to |p.cands|
      invariant forall x :: x in heap <==> x in heap0 || exists i: nat :: i < j && i !in e.idxs && IsExtension(p, e.idxs, i, x)
    {
      if j !in e.idxs {
        ExtensionEntry(p, e.idxs, j);
        var a := p.cands[j];
        heap := heap + {Entry(e.cost + ActionCost(a.action, p.costs), e.labels + [a.text], e.idxs + [j])};
      }
    }
  }

  predicate IsExtension(p: Problem, s: seq<nat>, j: nat, x: Entry)
    requires Indices(p, s) && j < |p.cands| && j !in s
  {
    Indices(p, s + [j]) && x == EntryOf(p, s + [j])
  }

  lemma ExtensionEntry(p: Problem, s: seq<nat>, j: nat)
    requires Indices(p, s) && j < |p.cands| && j !in s
    ensures Indices(p, s + [j])
    ensures EntryOf(p, s + [j]) == Entry(CostOf(p, s) + ActionCost(p.cands[j].action, p.costs), LabelsOf(p, s) + [p.cands[j].text], s + [j])
  {
    assert (s + [j])[..|s + [j]| - 1] == s;
    assert LabelsOf(p, s + [j]) == LabelsOf(p, s) + [p.cands[j].text];
  }

  /** `after` holds `rest` and, length permitting, the extensions of `e`. */
  ghost predicate Extended(p: Problem, rest: set<Entry>, e: Entry, after: set<Entry>)
    requires Indices(p, e.idxs)
  {
    forall x :: x in after <==> (x in rest || (|e.idxs| < p.maxLength && ExtendsBy(p, e, x)))
  }

  ghost predicate ExtendsBy(p: Problem, e: Entry, x: Entry)
    requires Indices(p, e.idxs)
  {
    exists j: nat :: j < |p.cands| && j !in e.idxs && IsExtension(p, e.idxs, j, x)
  }

  lemma RootWaits(p: Problem)
    ensures Frontier(p, {Entry(0.0, [], [])}, [])
  {
    assert EntryOf(p, []) == Entry(0.0, [], []);
    forall s | Allowed(p, s)
      ensures Waiting(p, {Entry(0.0, [], [])}, s)
    {
      assert s[..0] == [];
      assert EntryOf(p, s[..0]) in {Entry(0.0, [], [])};
    }
  }

  /** Whatever is not popped yet sorts no earlier than the least waiting entry. */
  lemma NotPoppedIsLater(p: Problem, heap: set<Entry>, popped: seq<seq<nat>>, least: Entry, s: seq<nat>)
    requires p.NonNegative() && Frontier(p, heap, popped) && (forall x :: x in heap ==> Leq(least, x))
    requires Allowed(p, s) && s !in popped
    ensures Leq(least, EntryOf(p, s))
  {
    hide Leq, Less;
    assert Waiting(p, heap, s);
    var k :| 0 <= k <= |s| && Indices(p, s[..k]) && EntryOf(p, s[..k]) in heap;
    LongerIsLater(p, s, k);
    Order(least, EntryOf(p, s[..k]), EntryOf(p, s));
  }

  lemma ExtensionLater(p: Problem, e: Entry, x: Entry)
    requires p.NonNegative() && Allowed(p, e.idxs) && e == EntryOf(p, e.idxs) && |e.idxs| < p.maxLength && ExtendsBy(p, e, x)
    ensures Allowed(p, x.idxs) && x == EntryOf(p, x.idxs) && Less(e, x)
  {
    hide Leq, CostOf, LabelsOf;
    var j: nat :| j < |p.cands| && j !in e.idxs && IsExtension(p, e.idxs, j, x);
    assert x.idxs[..|e.idxs|] == e.idxs;
    LongerIsLater(p, x.idxs, |e.idxs|);
  }

  lemma LessThen(x: Entry, y: Entry, z: Entry)
    requires Less(x, y) && Less(y, z)
    ensures Less(x, z)
  {
    hide Leq;
    Order(x, y, z);
    Order(y, x, z);
  }

  lemma AfterIsLater(p: Problem, heap: set<Entry>, e: Entry, after: set<Entry>, x: Entry)
    requires p.NonNegative() && Allowed(p, e.idxs) && e == EntryOf(p, e.idxs) && forall y :: y in heap ==> Leq(e, y)
    requires forall y :: y in heap ==> Allowed(p, y.idxs) && y == EntryOf(p, y.idxs)
    requires Extended(p, heap - {e}, e, after) && x in after
    ensures Allowed(p, x.idxs) && x == EntryOf(p, x.idxs) && Less(e, x)
  {
    hide Leq, EntryOf, ExtendsBy, Indices;
    if x !in heap - {e} { ExtensionLater(p, e, x); }
  }

  /** Popping the least entry and pushing its extensions keeps the search on track. */
  lemma PopKeepsFrontier(p: Problem, heap: set<Entry>, popped: seq<seq<nat>>, e: Entry, after: set<Entry>)
    requires p.NonNegative() && Frontier(p, heap, popped) && e in heap && forall x :: x in heap ==> Leq(e, x)
    requires Indices(p, e.idxs) && Extended(p, heap - {e}, e, after)
    ensures Frontier(p, after, popped + [e.idxs])
  {
    hide Leq, Less, CostOf, LabelsOf, Extended, Waiting, Indices;
    var now := popped + [e.idxs];
    forall x | x in after
      ensures Allowed(p, x.idxs) && x == EntryOf(p, x.idxs) && Less(e, x)
      ensures forall i :: 0 <= i < |popped| ==> Less(EntryOf(p, popped[i]), x)
    {
      AfterIsLater(p, heap, e, after, x);
      forall i | 0 <= i < |popped|
        ensures Less(EntryOf(p, popped[i]), x)
      {
        LessThen(EntryOf(p, popped[i]), e, x);
      }
    }
    forall s | Allowed(p, s)
      ensures s in now || Waiting(p, after, s)
    {
      if s in popped {
        assert s in now;
      } else {
        StillWaiting(p, heap, e, after, s);
        assert s == e.idxs ==> s == now[|popped|];
      }
    }
  }

  lemma StillWaiting(p: Problem, heap: set<Entry>, e: Entry, after: set<Entry>, s: seq<nat>)
    requires Allowed(p, s) && Waiting(p, heap, s) && Indices(p, e.idxs) && e == EntryOf(p, e.idxs)
    requires Extended(p, heap - {e}, e, after)
    ensures s == e.idxs || Waiting(p, after, s)
  {
    hide CostOf, LabelsOf;
    var k :| 0 <= k <= |s| && Indices(p, s[..k]) && EntryOf(p, s[..k]) in heap;
    if s[..k] == e.idxs && k < |s| {
      assert s[..k + 1] == s[..k] + [s[k]];
      assert Indices(p, s[..k + 1]) && s[k] !in e.idxs;
      assert IsExtension(p, e.idxs, s[k], EntryOf(p, s[..k + 1]));
      assert EntryOf(p, s[..k + 1]) in after;
    } else if s[..k] == e.idxs {
      assert s[..k] == s;
    } else {
      assert EntryOf(p, s[..k]) in after;
    }
  }

  /** Sequences leave the heap in strictly increasing order, so none is evaluated twice. */
  ghost predicate InOrder(p: Problem, popped: seq<seq<nat>>) {
    && (forall i :: 0 <= i < |popped| ==> Allowed(p, popped[i]))
    && (forall i, j :: 0 <= i < j < |popped| ==> Less(EntryOf(p, popped[i]), EntryOf(p, popped[j])))
  }

  /** What a finished search says about all sequences, evaluated or not. */
  ghost predicate Honest(p: Problem, maxEvaluations: int, r: Plan) {
    && (r.status.OptimalWithinBounds? <==> r.best.Some?)
    && (r.best.Some? ==> ValidPlan(p, r.best.value) && forall s :: ValidPlan(p, s) ==> Leq(EntryOf(p, r.best.value), EntryOf(p, s)))
    && (r.status.NoValidPlanWithinBounds? ==> forall s :: !ValidPlan(p, s))
    && (r.securityOnly.Some? ==> Contains(p, r.securityOnly.value) && forall s :: Contains(p, s) ==> Leq(EntryOf(p, r.securityOnly.value), EntryOf(p, s)))
    && (r.status.IncompleteSearch? ==> r.evaluations as int >= maxEvaluations)
    && (maxEvaluations >= 0 ==> r.evaluations as int <= maxEvaluations)
  }

  ghost predicate CheapestContained(p: Problem, s: seq<nat>) {
    Contains(p, s) && forall t :: Contains(p, t) ==> Leq(EntryOf(p, s), EntryOf(p, t))
  }

  /** Sequences over the first `n` positions of length at most `k`: finitely many. */
  function AllUpTo(n: nat, k: nat): set<seq<nat>> {
    if k == 0 then {[]}
    else
      var shorter := AllUpTo(n, k - 1);
      shorter + set s, j: nat | s in shorter && j < n :: s + [j]
  }

  lemma {:induction false} AllowedIsFinite(p: Problem, s: seq<nat>, k: nat)
    requires Indices(p, s) && |s| <= k
    ensures s in AllUpTo(|p.cands|, k)
  {
    if k > 0 {
      if |s| < k {
        AllowedIsFinite(p, s, k - 1);
      } else {
        AllowedIsFinite(p, s[..|s| - 1], k - 1);
        assert s == s[..|s| - 1] + [s[|s| - 1]];
      }
    }
  }

  /** The entry about to leave the heap is the least of everything not popped yet, and new. */
  lemma LeastOfAll(p: Problem, heap: set<Entry>, popped: seq<seq<nat>>, e: Entry)
    requires p.NonNegative() && Frontier(p, heap, popped) && e in heap && forall x :: x in heap ==> Leq(e, x)
    ensures Allowed(p, e.idxs) && e == EntryOf(p, e.idxs) && e.idxs !in popped
    ensures forall s :: Allowed(p, s) && s !in popped ==> Leq(e, EntryOf(p, s))
  {
    hide Leq, CostOf, LabelsOf;
    forall s | Allowed(p, s) && s !in popped
      ensures Leq(e, EntryOf(p, s))
    {
      NotPoppedIsLater(p, heap, popped, e, s);
    }
  }

  lemma PoppedInOrder(p: Problem, heap: set<Entry>, popped: seq<seq<nat>>)
    requires Frontier(p, heap, popped)
    ensures InOrder(p, popped)
    ensures forall e :: e in heap ==> Allowed(p, e.idxs) && InOrder(p, popped + [e.idxs])
  {
    hide Leq, Less, CostOf, LabelsOf;
  }

  lemma EmptyHeapIsDone(p: Problem, popped: seq<seq<nat>>)
    requires Frontier(p, {}, popped)
    ensures forall s :: Allowed(p, s) ==> s in popped
  {
  }

  method Search(p: Problem, maxEvaluations: int) returns (r: Plan, ghost popped: seq<seq<nat>>)
    requires p.NonNegative()
    ensures Honest(p, maxEvaluations, r)
    ensures InOrder(p, popped)
    ensures r.status.NoValidPlanWithinBounds? ==> forall s :: Allowed(p, s) ==> s in popped
  {
    hide Leq, Less, CostOf, LabelsOf, EntryOf, Frontier, InOrder, Indices;
    var evaluations: nat := 0;
    var securityOnly: Option<seq<nat>> := None;
    var heap := {Entry(0.0, [], [])};
    popped := [];
    RootWaits(p);
    ghost var left := AllUpTo(|p.cands|, p.Longest());
    forall s | Allowed(p, s)
      ensures s in left
    {
      AllowedIsFinite(p, s, p.Longest());
    }
    while heap != {}
      invariant Frontier(p, heap, popped)
      invariant forall s :: s in popped ==> !ValidPlan(p, s)
      invariant securityOnly.None? ==> forall s :: s in popped ==> !Contains(p, s)
      invariant securityOnly.Some? ==> CheapestContained(p, securityOnly.value)
      invariant maxEvaluations >= 0 ==> evaluations as int <= maxEvaluations
      invariant forall s :: Allowed(p, s) && s !in popped ==> s in left
      decreases left
    {
      var e, rest := PopLeast(heap);
      LeastOfAll(p, heap, popped, e);
      PoppedInOrder(p, heap, popped);
      if e.idxs != [] {
        if evaluations >= maxEvaluations {
          r := Plan(IncompleteSearch, None, securityOnly, evaluations);
          return;
        }
        evaluations := evaluations + 1;
        var v := VerdictOf(p, e.idxs);
        if v.contained && v.preserved {
          r := Plan(OptimalWithinBounds, Some(e.idxs), securityOnly, evaluations);
          popped := popped + [e.idxs];
          return;
        }
        if securityOnly.None? && v.contained { securityOnly := Some(e.idxs); }
      }
      var next := rest;
      if |e.idxs| < p.maxLength { next := PushExtensions(p, rest, e); }
      PopKeepsFrontier(p, heap, popped, e, next);
      popped := popped + [e.idxs];
      left := left - {e.idxs};
      heap := next;
    }
    EmptyHeapIsDone(p, popped);
    PoppedInOrder(p, heap, popped);
    r := Plan(NoValidPlanWithinBounds, None, securityOnly, evaluations);
  }

  /** Plans for an input; without candidates there is nothing to search. A returned plan costs no
      more than any other valid sequence, and so does a security-only plan among the contained. */
  method MakePlan(p: Problem, maxEvaluations: int) returns (o: Outcome)
    requires p.NonNegative()
    ensures o.NoCandidates? <==> p.cands == []
    ensures o.Planned? ==> Honest(p, maxEvaluations, o.plan)
    ensures o.Planned? && o.plan.best.Some? ==>
      ValidPlan(p, o.plan.best.value) && forall s :: ValidPlan(p, s) ==> CostOf(p, o.plan.best.value) <= CostOf(p, s)
    ensures o.Planned? && o.plan.securityOnly.Some? ==>
      Contains(p, o.plan.securityOnly.value) && forall s :: Contains(p, s) ==> CostOf(p, o.plan.securityOnly.value) <= CostOf(p, s)
  {
    if p.cands == [] { return NoCandidates; }
    var r, popped := Search(p, maxEvaluations);
    o := Planned(r);
    OrderMeansCost(p);
  }

  lemma OrderMeansCost(p: Problem)
    ensures forall s, t :: Indices(p, s) && Indices(p, t) && Leq(EntryOf(p, s), EntryOf(p, t)) ==> CostOf(p, s) <= CostOf(p, t)
  {
  }
}
