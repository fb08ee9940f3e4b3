/** The reference checker's witness replay: it rebuilds the environment of every interval from
    the inventory, the remediation and the objects the witness says it created, and re-checks
    each step there (packages/afterlock_reference/__init__.py, `_timeline` to `_check`). */
module Replay {
  import opened Model
  import opened Semantics
  import opened Attack
  import opened Rules
  import opened Case
  import opened Reference
  import opened Creations

  datatype Step = Step(fact: Fact, d: Derivation)

  // ---------------------------------------------------------------- the environments it rebuilds

  /** The object a creation step declares. */
  function Declared(step: Step): Option<Uid> {
    if step.d.rule.CreatePod? && step.fact.ControlsPod? && step.fact.pod.ModelPod? then Some(step.fact.pod)
    else if step.d.rule.CreateController? && step.fact.ControlsController? && step.fact.ctrl.ModelDeploy? then Some(step.fact.ctrl)
    else None
  }

  /** The objects declared for interval `i`, in witness order. */
  function DeclaredAt(steps: seq<Step>, i: int): seq<Uid> {
    if steps == [] then []
    else
      var before, u := DeclaredAt(steps[..|steps| - 1], i), Declared(steps[|steps| - 1]);
      if u.Some? && u.value.interval == i then before + [u.value] else before
  }

  function AddAll(e: Env, us: seq<Uid>): Env {
    if us == [] then e else AddCreated(AddAll(e, us[..|us| - 1]), us[|us| - 1])
  }

  /** The environment before the objects of interval `i` are added. */
  function ReplayBase(inp: Input, steps: seq<Step>, i: nat): Env
    requires i <= |inp.actions|
    decreases i, 0
  {
    if i == 0 then Reconcile(inp.env) else Reconcile(Defend(ReplayEnv(inp, steps, i - 1), inp.actions[i - 1]))
  }

  function ReplayEnv(inp: Input, steps: seq<Step>, i: nat): Env
    requires i <= |inp.actions|
    decreases i, 1
  {
    AddAll(ReplayBase(inp, steps, i), DeclaredAt(steps, i))
  }

  function WithHistory(inp: Input, e: Env): Env {
    e.(pods := e.pods + map u | u in AllRows(inp) :: HistoricalPod(u, AllRows(inp)[u]))
  }

  function ReplayHistory(inp: Input, steps: seq<Step>): Env {
    AddAll(WithHistory(inp, Reconcile(inp.env)), DeclaredAt(steps, -1))
  }

  function ReplayAt(inp: Input, steps: seq<Step>, i: int): Env
    requires -1 <= i <= |inp.actions|
  {
    if i == -1 then ReplayHistory(inp, steps) else ReplayEnv(inp, steps, i)
  }

  // ---------------------------------------------------------------- what a step must satisfy

  function Lookup(inp: Input, derived: map<CredId, Cred>, id: CredId): Option<Cred> {
    if id in derived then Some(derived[id]) else if id in inp.credentials then Some(inp.credentials[id]) else None
  }

  predicate CheckCredential(inp: Input, e: Env, derived: map<CredId, Cred>, i: int, id: CredId, t: int) {
    && (i == -1 ==> t <= inp.env.time && (inp.historyStart.Some? ==> inp.historyStart.value <= t))
    && var c := Lookup(inp, derived, id);
       c.Some? && CredCheck(inp.st, if i == -1 then e.(time := t) else e, c.value, None).CredOk?
  }

  predicate Check(inp: Input, e: Env, derived: map<CredId, Cred>, i: int, c: Condition) {
    match c
    case CredentialChecked(id, t) => CheckCredential(inp, e, derived, i, id, t)
    case AuthorizedBy(user, verb, resource, ns, name, via) =>
      var grants := AuthorizingBindings(inp.st, e.bindings, user, verb, resource, ns, name);
      grants != {} && via <= grants
    case AdmissionAllows(user, a) => AdmissionVerdict(inp.st, user, a.ns, a.name).Allow?
    case AccountExists(a, uid) => a in e.sas && (uid.Some? ==> e.sas[a] == uid.value)
    case PodExists(u) => u in e.pods
    case PodOwned(u, ctrl) => u in e.pods && e.pods[u].owner == Some(ctrl)
    case SecretAt(k, v) => k in e.secrets && e.secrets[k] == v
    case ServiceSources(name, k) => name in e.services && e.services[name].source == k
    case ServiceAccepts(name, v) => name in e.services && Honours(e, e.services[name], v)
  }

  /** The Pod a token step draws on, with its service account, if both are there. */
  predicate TokenSource(e: Env, step: Step) {
    && step.fact.Possesses? && step.fact.cred.Projected?
    && step.d.premises != [] && step.d.premises[0].ControlsPod?
    && step.d.premises[0].pod in e.pods && e.pods[step.d.premises[0].pod].Acct() in e.sas
  }

  function TokenOf(inp: Input, e: Env, step: Step): Cred
    requires TokenSource(e, step)
  {
    Token(inp.st, e, step.d.premises[0].pod, step.fact.cred.audience).(id := step.fact.cred)
  }

  predicate SecretRead(e: Env, f: Fact) {
    || (f.KnowsSecret? && f.known.secret in e.secrets && e.secrets[f.known.secret] == f.known.version)
    || (f.CanReadSecret? && f.secret in e.secrets)
  }

  /** The status of the input fact a claim comes from; of duplicates, the last one's. */
  function Claimed(inp: Input, facts: seq<InitialFact>, f: Fact): Option<Status> {
    if facts == [] then None
    else if FactOf(facts[|facts| - 1].claim) == f then Some(facts[|facts| - 1].status)
    else Claimed(inp, facts[..|facts| - 1], f)
  }

  predicate EvidenceFits(inp: Input, view: Perspective, f: Fact) {
    var status := Claimed(inp, inp.facts, f);
    status.Some? && !(view.EvidenceSupported? && status.value.Inferred?)
  }

  function FactsOf(steps: seq<Step>): set<Fact> { set s | s in steps :: s.fact }

  function InRange(inp: Input, i: int): bool { -1 <= i <= |inp.actions| }

  /** The tokens derived by the steps before step `k`. */
  function DerivedBy(inp: Input, steps: seq<Step>, k: nat): map<CredId, Cred>
    requires k <= |steps|
  {
    if k == 0 then map[]
    else
      var before, step := DerivedBy(inp, steps, k - 1), steps[k - 1];
      if step.d.rule.ObtainToken? && InRange(inp, step.d.interval) && TokenSource(ReplayAt(inp, steps, step.d.interval), step)
      then before[step.fact.cred := TokenOf(inp, ReplayAt(inp, steps, step.d.interval), step)]
      else before
  }

  predicate PremisesFirst(steps: seq<Step>, k: nat)
    requires k < |steps|
  {
    forall p :: p in steps[k].d.premises ==> p in FactsOf(steps[..k])
  }

  predicate StepAccepted(inp: Input, view: Perspective, steps: seq<Step>, k: nat)
    requires k < |steps|
  {
    var step := steps[k];
    && PremisesFirst(steps, k)
    && if step.d.rule.Evidence? then EvidenceFits(inp, view, step.fact)
       else
         && InRange(inp, step.d.interval)
         && var e := ReplayAt(inp, steps, step.d.interval);
            && (forall c :: c in step.d.conditions ==> Check(inp, e, DerivedBy(inp, steps, k), step.d.interval, c))
            && (step.d.rule.ObtainToken? ==> TokenSource(e, step))
            && (step.d.rule.ReadSecret? ==> SecretRead(e, step.fact))
  }

  /** The interval of the last step that derives `goal`. */
  function LastInterval(steps: seq<Step>, goal: Fact): Option<int> {
    if steps == [] then None
    else if steps[|steps| - 1].fact == goal then Some(steps[|steps| - 1].d.interval)
    else LastInterval(steps[..|steps| - 1], goal)
  }

  /** The replay finds no problem. */
  predicate Replays(inp: Input, view: Perspective, steps: seq<Step>, goal: Fact) {
    && (forall k :: 0 <= k < |steps| ==> StepAccepted(inp, view, steps, k))
    && LastInterval(steps, goal) == Some(|inp.actions|)
  }

  // ---------------------------------------------------------------- the replay itself

  /** The environments of all intervals, one after the other. */
  method Timeline(inp: Input, steps: seq<Step>) returns (envs: seq<Env>)
    ensures |envs| == |inp.actions| + 1
    ensures forall i :: 0 <= i <= |inp.actions| ==> envs[i] == ReplayEnv(inp, steps, i)
  {
    hide Reconcile, Defend, AddAll, DeclaredAt;
    envs := [];
    var e := Reconcile(inp.env);
    for i := 0 to |inp.actions| + 1
      invariant |envs| == i && (i == 0 ==> e == Reconcile(inp.env)) && (i > 0 ==> e == envs[i - 1])
      invariant forall j :: 0 <= j < i ==> envs[j] == ReplayEnv(inp, steps, j)
    {
      if i > 0 { e := Reconcile(Defend(e, inp.actions[i - 1])); }
      e := AddAll(e, DeclaredAt(steps, i));
      envs := envs + [e];
    }
  }

  method CheckAll(inp: Input, e: Env, derived: map<CredId, Cred>, i: int, cs: seq<Condition>) returns (problems: nat)
    ensures problems == 0 <==> forall c :: c in cs ==> Check(inp, e, derived, i, c)
  {
    hide Check;
    problems := 0;
    for j := 0 to |cs|
      invariant problems == 0 <==> forall c :: c in cs[..j] ==> Check(inp, e, derived, i, c)
    {
      if !Check(inp, e, derived, i, cs[j]) { problems := problems + 1; }
      assert cs[..j + 1] == cs[..j] + [cs[j]];
    }
    assert cs[..|cs|] == cs;
  }

  method MissingPremises(premises: seq<Fact>, established: set<Fact>) returns (problems: nat)
    ensures problems == 0 <==> forall p :: p in premises ==> p in established
  {
    problems := 0;
    for j := 0 to |premises|
      invariant problems == 0 <==> forall p :: p in premises[..j] ==> p in established
    {
      if premises[j] !in established { problems := problems + 1; }
      assert premises[..j + 1] == premises[..j] + [premises[j]];
    }
    assert premises[..|premises|] == premises;
  }

  /** Replays one witness; `problems` counts what it objects to. */
  method VerifyWitness(inp: Input, view: Perspective, steps: seq<Step>, goal: Fact) returns (problems: nat)
    ensures problems == 0 <==> Replays(inp, view, steps, goal)
  {
    hide ReplayEnv, ReplayHistory, Check, EvidenceFits, TokenOf, SecretRead, FactsOf, LastInterval;
    var envs := Timeline(inp, steps);
    var established: set<Fact> := {};
    var derived: map<CredId, Cred> := map[];
    problems := 0;
    NothingEstablished(steps);
    for k := 0 to |steps|
      invariant problems == 0 <==> forall j :: 0 <= j < k ==> StepAccepted(inp, view, steps, j)
      invariant problems == 0 ==> established == FactsOf(steps[..k])
      invariant established <= FactsOf(steps[..k])
      invariant derived == DerivedBy(inp, steps, k)
    {
      var step := steps[k];
      var i := step.d.interval;
      OneMoreEstablished(steps, k);
      ghost var before := problems;
      var missing := MissingPremises(step.d.premises, established);
      problems := problems + missing;
      if step.d.rule.Evidence? {
        if !EvidenceFits(inp, view, step.fact) { problems := problems + 1; }
        established := established + {step.fact};
      } else if !InRange(inp, i) {
        problems := problems + 1;
      } else {
        var e := if i >= 0 then envs[i] else ReplayHistory(inp, steps);
        assert e == ReplayAt(inp, steps, i);
        var failed := CheckAll(inp, e, derived, i, step.d.conditions);
        problems := problems + failed;
        if step.d.rule.ObtainToken? {
          if TokenSource(e, step) { derived := derived[step.fact.cred := TokenOf(inp, e, step)]; }
          else { problems := problems + 1; }
        }
        if step.d.rule.ReadSecret? && !SecretRead(e, step.fact) { problems := problems + 1; }
        established := established + {step.fact};
      }
      assert before == 0 ==> (problems == 0 <==> StepAccepted(inp, view, steps, k));
    }
    assert steps[..|steps|] == steps;
    GoalEstablished(steps, goal);
    if goal !in established { problems := problems + 1; }
    var last := LastInterval(steps, goal);
    if last.Some? && last.value != |inp.actions| { problems := problems + 1; }
  }

  lemma NothingEstablished(steps: seq<Step>)
    ensures FactsOf(steps[..0]) == {}
  {
  }

  lemma OneMoreEstablished(steps: seq<Step>, k: nat)
    requires k < |steps|
    ensures FactsOf(steps[..k + 1]) == FactsOf(steps[..k]) + {steps[k].fact}
  {
    assert steps[..k + 1] == steps[..k] + [steps[k]];
    assert steps[k] in steps[..k + 1];
    forall f | f in FactsOf(steps[..k])
      ensures f in FactsOf(steps[..k + 1])
    {
      var s :| s in steps[..k] && s.fact == f;
      assert s in steps[..k + 1];
    }
  }

  lemma {:induction false} GoalEstablished(steps: seq<Step>, goal: Fact)
    ensures goal in FactsOf(steps) <==> LastInterval(steps, goal).Some?
  {
    if steps != [] {
      GoalEstablished(steps[..|steps| - 1], goal);
      OneMoreEstablished(steps, |steps| - 1);
      assert steps[..|steps|] == steps;
    }
  }
}
