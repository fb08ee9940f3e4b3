/** Every witness the engine emits passes the reference checker's replay, except for Pods known
    only from history: the replay wants each evidence step among the input's direct claims. */
module Acceptance {
  import opened Model
  import opened Semantics
  import opened Attack
  import opened Rules
  import opened Shape
  import opened Fixpoint
  import opened Homes
  import opened Case
  import opened Interleavings
  import opened Reference
  import opened Provenance
  import opened Replay
  import opened Witnesses
  import opened Story
  import opened Testimony
  import opened PastSupport
  import opened EngineStatus
  import opened Engine

  /** What the replay relies on without checking: no credential is bound to a reserved UID, and
      historical Pods are apart from the inventory. */
  ghost predicate Replayable(inp: Input) {
    && (forall id :: id in inp.credentials && inp.credentials[id].boundPod.Some? ==> !Created(inp.credentials[id].boundPod.value))
    && HistoryApart(inp)
  }

  // ---------------------------------------------------------------- a witness with its environments

  /** `envs` are the environments the engine's intervals ended in. */
  ghost predicate Backed(inp: Input, view: Perspective, steps: seq<Step>, envs: map<int, Env>, creds: map<CredId, Cred>) {
    forall s :: s in steps ==> StepBacked(inp, view, s, envs, creds)
  }

  predicate StepBacked(inp: Input, view: Perspective, s: Step, envs: map<int, Env>, creds: map<CredId, Cred>) {
    if s.d.rule.Evidence? then s.d == EVIDENCE && s.fact in EvidenceFacts(inp, view)
    else s.d.interval in envs && Explained(inp.st, inp.historyStart, envs[s.d.interval], creds, s.fact, s.d)
  }

  ghost predicate Supported(inp: Input, steps: seq<Step>, envs: map<int, Env>) {
    forall i :: i in envs ==>
      && -1 <= i <= |inp.actions| && Supports(envs[i], Roots(steps), ReplayAt(inp, steps, i))
      && Shaped(envs[i]) && (i == -1 ==> envs[i].time == inp.env.time) && Accounts(inp, envs[i])
  }

  /** Service accounts are never recreated. */
  predicate Accounts(inp: Input, e: Env) {
    forall a :: a in e.sas ==> a in inp.env.sas && e.sas[a] == inp.env.sas[a]
  }

  ghost predicate InputsUsed(inp: Input, creds: map<CredId, Cred>) {
    forall id :: id in creds && id.InputCred? ==> id in inp.credentials && inp.credentials[id] == creds[id]
  }

  // ---------------------------------------------------------------- created objects are declared

  lemma RootTwice(u: Uid)
    ensures Root(Root(u)) == Root(u) && (Created(u) <==> Created(Root(u)))
  {
  }

  lemma EarlierStep(steps: seq<Step>, k: nat, f: Fact) returns (j: nat)
    requires k <= |steps| && f in FactsOf(steps[..k])
    ensures j < k && steps[j].fact == f
  {
    var s :| s in steps[..k] && s.fact == f;
    j :| 0 <= j < k && steps[..k][j] == s;
  }

  lemma DeclaredKept(steps: seq<Step>, k: nat)
    requires k < |steps| && Declared(steps[k]).Some?
    ensures Declared(steps[k]).value in Roots(steps)
  {
    assert steps[k] in steps;
  }

  /** A controlled object the witness mentions is native, or its creation is in the witness. */
  lemma {:induction false} ControlledKept(inp: Input, view: Perspective, steps: seq<Step>, envs: map<int, Env>, creds: map<CredId, Cred>, k: nat)
    requires WellFormed(inp) && Backed(inp, view, steps, envs, creds) && Ordered(steps) && k < |steps|
    ensures steps[k].fact.ControlsPod? ==> Keeps(Roots(steps), steps[k].fact.pod)
    ensures steps[k].fact.ControlsController? ==> Keeps(Roots(steps), steps[k].fact.ctrl)
    decreases k
  {
    hide Backed, Met, FactsOf, Roots, Plain, EvidenceFacts;
    var s := steps[k];
    assert s in steps && StepBacked(inp, view, s, envs, creds) by { BackedAt(inp, view, steps, envs, creds, k); }
    if s.d.rule.Evidence? {
      EvidenceNative(inp, view, s.fact);
    } else if Declared(s).Some? {
      DeclaredKept(steps, k);
    } else if s.fact.ControlsPod? && Created(s.fact.pod) {
      RootTwice(s.fact.pod);
      assert CreatorFact(s.fact.pod) in s.d.premises;
      assert PremisesFirst(steps, k);
      var j := EarlierStep(steps, k, CreatorFact(s.fact.pod));
      ControlledKept(inp, view, steps, envs, creds, j);
    }
  }

  lemma BackedAt(inp: Input, view: Perspective, steps: seq<Step>, envs: map<int, Env>, creds: map<CredId, Cred>, k: nat)
    requires Backed(inp, view, steps, envs, creds) && k < |steps|
    ensures StepBacked(inp, view, steps[k], envs, creds)
  {
    assert steps[k] in steps;
  }

  lemma EvidenceNative(inp: Input, view: Perspective, f: Fact)
    requires WellFormed(inp) && f in EvidenceFacts(inp, view)
    ensures f.ControlsPod? ==> !Created(f.pod)
    ensures f.ControlsController? ==> !Created(f.ctrl)
    ensures f.Possesses? ==> f.cred.InputCred?
  {
    SceneValid(inp, view, map[]);
    assert f in SceneOf(inp, view, map[]).evidence;
  }

  /** The Pod behind a token the witness uses is kept. */
  lemma TokenPodKept(inp: Input, view: Perspective, steps: seq<Step>, envs: map<int, Env>, creds: map<CredId, Cred>, k: nat)
    requires WellFormed(inp) && Backed(inp, view, steps, envs, creds) && Ordered(steps) && k < |steps|
    requires steps[k].fact.Possesses? && steps[k].fact.cred.Projected?
    ensures steps[k].d.rule.ObtainToken? && Keeps(Roots(steps), steps[k].fact.cred.pod) && steps[k].d.premises == [ControlsPod(steps[k].fact.cred.pod)]
  {
    hide Backed, Met, FactsOf, Roots, Plain, EvidenceFacts, Keeps, Token;
    var s := steps[k];
    BackedAt(inp, view, steps, envs, creds, k);
    if s.d.rule.Evidence? {
      EvidenceNative(inp, view, s.fact);
    } else {
      assert PremisesFirst(steps, k) && ControlsPod(s.fact.cred.pod) in s.d.premises;
      var j := EarlierStep(steps, k, ControlsPod(s.fact.cred.pod));
      ControlledKept(inp, view, steps, envs, creds, j);
    }
  }

  // ---------------------------------------------------------------- tokens the replay derives

  lemma TokenSupported(inp: Input, e: Env, roots: set<Uid>, r: Env, pod: Uid, aud: string)
    requires Supports(e, roots, r) && Keeps(roots, pod) && pod in e.pods && e.pods[pod].Acct() in e.sas
    ensures pod in r.pods && r.pods[pod].Acct() in r.sas && Token(inp.st, r, pod, aud) == Token(inp.st, e, pod, aud)
  {
    hide Keeps;
  }

  /** A token step of the witness derives, in the replay, exactly the token the engine holds. */
  lemma TokenStepDerives(inp: Input, view: Perspective, steps: seq<Step>, envs: map<int, Env>, creds: map<CredId, Cred>, k: nat)
    requires WellFormed(inp) && Backed(inp, view, steps, envs, creds) && Supported(inp, steps, envs) && Ordered(steps) && k < |steps|
    requires steps[k].d.rule.ObtainToken?
    ensures InRange(inp, steps[k].d.interval)
    ensures var e := ReplayAt(inp, steps, steps[k].d.interval);
      && TokenSource(e, steps[k]) && steps[k].fact.cred in creds && TokenOf(inp, e, steps[k]) == creds[steps[k].fact.cred]
  {
    hide Backed, Met, FactsOf, Roots, Plain, EvidenceFacts, Keeps, Supports, ReplayAt, Shaped;
    var s := steps[k];
    BackedAt(inp, view, steps, envs, creds, k);
    TokenPodKept(inp, view, steps, envs, creds, k);
    TokenSupported(inp, envs[s.d.interval], Roots(steps), ReplayAt(inp, steps, s.d.interval), s.fact.cred.pod, s.fact.cred.audience);
  }

  /** After `k` steps the replay knows every token among their facts, with the engine's value. */
  lemma {:induction false} TokensDerived(inp: Input, view: Perspective, steps: seq<Step>, envs: map<int, Env>, creds: map<CredId, Cred>, k: nat, id: CredId)
    requires WellFormed(inp) && Backed(inp, view, steps, envs, creds) && Supported(inp, steps, envs) && Ordered(steps) && k <= |steps|
    ensures id in DerivedBy(inp, steps, k) ==> id.Projected? && id in creds && DerivedBy(inp, steps, k)[id] == creds[id]
    ensures id.Projected? && Possesses(id) in FactsOf(steps[..k]) ==> id in DerivedBy(inp, steps, k)
  {
    hide Backed, Supported, Plain, Ordered, ReplayAt, FactsOf, TokenOf, InRange;
    if k > 0 {
      TokensDerived(inp, view, steps, envs, creds, k - 1, id);
      OneMoreEstablished(steps, k - 1);
      if steps[k - 1].d.rule.ObtainToken? { TokenStepDerives(inp, view, steps, envs, creds, k - 1); }
      if steps[k - 1].fact == Possesses(id) && id.Projected? { TokenPodKept(inp, view, steps, envs, creds, k - 1); }
    } else {
      NoFacts(steps);
    }
  }

  lemma NoFacts(steps: seq<Step>)
    ensures FactsOf(steps[..0]) == {}
  {
  }

  // ---------------------------------------------------------------- conditions

  function RunsAs(e: Env, u: Uid): Option<Account> { if u in e.pods then Some(e.pods[u].Acct()) else None }

  /** If step `j` takes a token that step `k` uses, its Pod runs, where it is used, as the account it
      ran as where the token was taken. */
  predicate UseHolds(inp: Input, steps: seq<Step>, j: nat, k: nat)
    requires j < |steps| && k < |steps|
  {
    forall c :: c in steps[k].d.conditions && c.CredentialChecked? && c.cred.Projected? && steps[j].fact == Possesses(c.cred) ==>
      Ran(inp, steps, j, c.cred.pod) == Ran(inp, steps, k, c.cred.pod)
  }

  function Ran(inp: Input, steps: seq<Step>, k: nat, u: Uid): Option<Account>
    requires k < |steps|
  {
    if InRange(inp, steps[k].d.interval) then RunsAs(ReplayAt(inp, steps, steps[k].d.interval), u) else None
  }

  ghost predicate StepHolds(inp: Input, steps: seq<Step>, k: nat)
    requires k < |steps|
  {
    forall j :: 0 <= j < k ==> UseHolds(inp, steps, j, k)
  }

  /** The replay checks an input credential as the engine did. */
  lemma InputPasses(inp: Input, e: Env, roots: set<Uid>, r: Env, creds: map<CredId, Cred>, derived: map<CredId, Cred>, i: int, id: CredId, t: int)
    requires id.InputCred? && Met(inp.st, inp.historyStart, i, e, creds, CredentialChecked(id, t)) && Supports(e, roots, r)
    requires i == -1 ==> e.time == inp.env.time
    requires Lookup(inp, derived, id) == Some(creds[id])
    requires creds[id].boundPod.Some? ==> Keeps(roots, creds[id].boundPod.value)
    ensures CheckCredential(inp, r, derived, i, id, t)
  {
    hide Keeps;
    CredCheckIsExact(inp.st, if i == -1 then r.(time := t) else r, creds[id], None);
  }

  /** Of a token it sees the account it was last taken for. */
  lemma TokenPasses(inp: Input, f: Env, e: Env, roots: set<Uid>, r: Env, creds: map<CredId, Cred>, derived: map<CredId, Cred>, i: int, id: CredId, t: int)
    requires id.Projected? && Met(inp.st, inp.historyStart, i, e, creds, CredentialChecked(id, t)) && Supports(e, roots, r) && Keeps(roots, id.pod)
    requires i == -1 ==> e.time == inp.env.time
    requires id.pod in f.pods && f.pods[id.pod].Acct() in f.sas && creds[id] == Token(inp.st, f, id.pod, id.audience)
    requires Accounts(inp, e) && Accounts(inp, f) && Lookup(inp, derived, id) == Some(creds[id])
    ensures CheckCredential(inp, r, derived, i, id, t) <==> f.pods[id.pod].Acct() == e.pods[id.pod].Acct()
  {
    hide Keeps;
    CredCheckIsExact(inp.st, if i == -1 then r.(time := t) else r, creds[id], None);
  }

  lemma InputKnown(inp: Input, view: Perspective, steps: seq<Step>, envs: map<int, Env>, creds: map<CredId, Cred>, k: nat, id: CredId)
    requires WellFormed(inp) && Replayable(inp) && InputsUsed(inp, creds)
    requires Backed(inp, view, steps, envs, creds) && Supported(inp, steps, envs) && Ordered(steps) && k <= |steps|
    requires id in creds && id.InputCred?
    ensures Lookup(inp, DerivedBy(inp, steps, k), id) == Some(creds[id])
    ensures creds[id].boundPod.Some? ==> Keeps(Roots(steps), creds[id].boundPod.value)
  {
    hide Backed, Supported, Plain, FactsOf, Roots, HistoryApart, DerivedBy;
    TokensDerived(inp, view, steps, envs, creds, k, id);
    assert id !in DerivedBy(inp, steps, k);
  }

  /** Where a token the witness uses was last taken. */
  lemma TokenTaken(inp: Input, view: Perspective, steps: seq<Step>, envs: map<int, Env>, creds: map<CredId, Cred>, j: nat, id: CredId)
    requires WellFormed(inp) && Backed(inp, view, steps, envs, creds) && Supported(inp, steps, envs) && Ordered(steps) && j < |steps|
    requires id.Projected? && steps[j].fact == Possesses(id)
    ensures var i := steps[j].d.interval;
      && i in envs && InRange(inp, i) && Keeps(Roots(steps), id.pod)
      && id.pod in envs[i].pods && envs[i].pods[id.pod].Acct() in envs[i].sas && id in creds && creds[id] == Token(inp.st, envs[i], id.pod, id.audience)
      && Ran(inp, steps, j, id.pod) == Some(envs[i].pods[id.pod].Acct())
  {
    hide Met, Roots, Keeps, Shaped, ReplayAt, EvidenceFacts, Plain, Accounts;
    TokenPodKept(inp, view, steps, envs, creds, j);
    BackedAt(inp, view, steps, envs, creds, j);
  }

  lemma UseRan(inp: Input, view: Perspective, steps: seq<Step>, envs: map<int, Env>, creds: map<CredId, Cred>, k: nat, u: Uid)
    requires Supported(inp, steps, envs) && k < |steps| && steps[k].d.interval in envs && u in envs[steps[k].d.interval].pods && Keeps(Roots(steps), u)
    ensures InRange(inp, steps[k].d.interval) && Ran(inp, steps, k, u) == Some(envs[steps[k].d.interval].pods[u].Acct())
  {
    hide Roots, Keeps, Shaped, ReplayAt, Accounts;
  }

  /** The replay accepts a use of a token exactly when the Pod still was, or again is, of the account
      the token was last taken for. */
  lemma TokenUse(inp: Input, view: Perspective, steps: seq<Step>, envs: map<int, Env>, creds: map<CredId, Cred>, k: nat, id: CredId, t: int)
    requires WellFormed(inp) && Backed(inp, view, steps, envs, creds) && Supported(inp, steps, envs) && Ordered(steps) && k < |steps|
    requires id.Projected? && !steps[k].d.rule.Evidence? && steps[k].d.interval in envs && Possesses(id) in FactsOf(steps[..k])
    requires Met(inp.st, inp.historyStart, steps[k].d.interval, envs[steps[k].d.interval], creds, CredentialChecked(id, t))
    ensures InRange(inp, steps[k].d.interval)
    ensures CheckCredential(inp, ReplayAt(inp, steps, steps[k].d.interval), DerivedBy(inp, steps, k), steps[k].d.interval, id, t)
       <==> forall j :: 0 <= j < k && steps[j].fact == Possesses(id) ==> Ran(inp, steps, j, id.pod) == Ran(inp, steps, k, id.pod)
  {
    hide Backed, Roots, Keeps, Shaped, ReplayAt, EvidenceFacts, Plain, Accounts, FactsOf, DerivedBy, CheckCredential, Ran, Token, Lookup;
    var i := steps[k].d.interval;
    IntervalInRange(inp, steps, envs, i);
    TokensDerived(inp, view, steps, envs, creds, k, id);
    TokenFound(inp, DerivedBy(inp, steps, k), id);
    var j0 := EarlierStep(steps, k, Possesses(id));
    forall j | 0 <= j < k && steps[j].fact == Possesses(id)
      ensures CheckCredential(inp, ReplayAt(inp, steps, i), DerivedBy(inp, steps, k), i, id, t) <==> Ran(inp, steps, j, id.pod) == Ran(inp, steps, k, id.pod)
    {
      TokenTaken(inp, view, steps, envs, creds, j, id);
      UseRan(inp, view, steps, envs, creds, k, id.pod);
      TokenPasses(inp, envs[steps[j].d.interval], envs[i], Roots(steps), ReplayAt(inp, steps, i), creds, DerivedBy(inp, steps, k), i, id, t);
    }
  }

  lemma TokenFound(inp: Input, derived: map<CredId, Cred>, id: CredId)
    ensures id in derived ==> Lookup(inp, derived, id) == Some(derived[id])
  {
  }

  lemma PremiseEarlier(steps: seq<Step>, k: nat, f: Fact)
    requires Ordered(steps) && k < |steps| && f in steps[k].d.premises
    ensures f in FactsOf(steps[..k])
  {
    hide FactsOf;
    assert PremisesFirst(steps, k);
  }

  /** Each recorded condition that is not about a token passes the replay's check. */
  lemma ConditionPasses(inp: Input, view: Perspective, steps: seq<Step>, envs: map<int, Env>, creds: map<CredId, Cred>, k: nat, c: Condition)
    requires WellFormed(inp) && Replayable(inp) && InputsUsed(inp, creds)
    requires Backed(inp, view, steps, envs, creds) && Supported(inp, steps, envs) && Ordered(steps) && k < |steps|
    requires !steps[k].d.rule.Evidence? && c in steps[k].d.conditions && steps[k].d.interval in envs && !(c.CredentialChecked? && c.cred.Projected?)
    requires var d := steps[k].d; Met(inp.st, inp.historyStart, d.interval, envs[d.interval], creds, c) && Anchored(c, d.premises)
    ensures InRange(inp, steps[k].d.interval)
    ensures Check(inp, ReplayAt(inp, steps, steps[k].d.interval), DerivedBy(inp, steps, k), steps[k].d.interval, c)
  {
    hide Backed, Plain, FactsOf, Roots, DerivedBy, ReplayAt, Ordered, Keeps, AuthorizingBindings, AdmissionDecision, AdmissionVerdict,
      CheckCredential, CredentialUsable, Replayable, InputsUsed, Shaped, Accounts;
    var d := steps[k].d;
    var e, r := envs[d.interval], ReplayAt(inp, steps, d.interval);
    match c {
      case CredentialChecked(id, t) =>
        InputKnown(inp, view, steps, envs, creds, k, id);
        InputPasses(inp, e, Roots(steps), r, creds, DerivedBy(inp, steps, k), d.interval, id, t);
      case PodOwned(u, ctrl) =>
        PremiseEarlier(steps, k, ControlsController(ctrl));
        var j := EarlierStep(steps, k, ControlsController(ctrl));
        ControlledKept(inp, view, steps, envs, creds, j);
        OwnedKept(e, Roots(steps), u);
      case PodExists(u) =>
        PremiseEarlier(steps, k, ControlsPod(u));
        var j := EarlierStep(steps, k, ControlsPod(u));
        ControlledKept(inp, view, steps, envs, creds, j);
      case AdmissionAllows(user, a) => VerdictsAgree(inp.st, user, a.ns, a.name);
      case _ =>
    }
  }

  /** What the replay makes of one condition. */
  lemma ConditionChecked(inp: Input, view: Perspective, steps: seq<Step>, envs: map<int, Env>, creds: map<CredId, Cred>, k: nat, c: Condition)
    requires WellFormed(inp) && Replayable(inp) && InputsUsed(inp, creds)
    requires Backed(inp, view, steps, envs, creds) && Supported(inp, steps, envs) && Ordered(steps) && k < |steps|
    requires !steps[k].d.rule.Evidence? && c in steps[k].d.conditions
    ensures InRange(inp, steps[k].d.interval)
    ensures Check(inp, ReplayAt(inp, steps, steps[k].d.interval), DerivedBy(inp, steps, k), steps[k].d.interval, c)
       <==> (c.CredentialChecked? && c.cred.Projected? ==>
               forall j :: 0 <= j < k && steps[j].fact == Possesses(c.cred) ==> Ran(inp, steps, j, c.cred.pod) == Ran(inp, steps, k, c.cred.pod))
  {
    hide Backed, Plain, FactsOf, Roots, DerivedBy, ReplayAt, Ordered, Keeps, CheckCredential, Replayable, InputsUsed, Supported, Met, Ran, Effect, Rooted;
    BackedAt(inp, view, steps, envs, creds, k);
    if c.CredentialChecked? && c.cred.Projected? {
      PremiseEarlier(steps, k, Possesses(c.cred));
      TokenUse(inp, view, steps, envs, creds, k, c.cred, c.time);
    } else {
      ConditionPasses(inp, view, steps, envs, creds, k, c);
    }
  }

  lemma OwnedKept(e: Env, roots: set<Uid>, u: Uid)
    requires Shaped(e) && u in e.pods && e.pods[u].owner.Some? && Keeps(roots, e.pods[u].owner.value)
    ensures Keeps(roots, u)
  {
    OwnerKept(e, roots, u);
  }

  // ---------------------------------------------------------------- evidence steps

  /** The input claims the fact itself, and its last claim of it counts in this view. */
  ghost predicate DirectlyClaimed(inp: Input, view: Perspective, f: Fact) {
    exists i :: 0 <= i < |inp.facts| && LastClaim(inp.facts, i, f) && Kept(inp.facts[i], view, Full)
  }

  predicate LastClaim(facts: seq<InitialFact>, i: nat, f: Fact)
    requires i < |facts|
  {
    FactOf(facts[i].claim) == f && forall j :: i < j < |facts| ==> FactOf(facts[j].claim) != f
  }

  lemma {:induction false} ClaimedIsLast(inp: Input, facts: seq<InitialFact>, f: Fact) returns (i: int)
    ensures Claimed(inp, facts, f).Some? ==> 0 <= i < |facts| && LastClaim(facts, i, f) && Claimed(inp, facts, f) == Some(facts[i].status)
    ensures Claimed(inp, facts, f).None? ==> forall j :: 0 <= j < |facts| ==> FactOf(facts[j].claim) != f
  {
    i := -1;
    if facts != [] {
      var n := |facts| - 1;
      if FactOf(facts[n].claim) == f {
        i := n;
      } else {
        i := ClaimedIsLast(inp, facts[..n], f);
        assert forall j :: 0 <= j < n ==> facts[..n][j] == facts[j];
      }
    }
  }

  /** The replay accepts an evidence step exactly when the input claims its fact directly. */
  lemma EvidencePasses(inp: Input, view: Perspective, f: Fact)
    ensures EvidenceFits(inp, view, f) <==> DirectlyClaimed(inp, view, f)
  {
    var i := ClaimedIsLast(inp, inp.facts, f);
    if DirectlyClaimed(inp, view, f) {
      var j :| 0 <= j < |inp.facts| && LastClaim(inp.facts, j, f) && Kept(inp.facts[j], view, Full);
      assert i == j;
    }
  }

  // ---------------------------------------------------------------- one step

  lemma ReadPasses(inp: Input, view: Perspective, steps: seq<Step>, envs: map<int, Env>, creds: map<CredId, Cred>, k: nat)
    requires Backed(inp, view, steps, envs, creds) && Supported(inp, steps, envs) && k < |steps|
    requires steps[k].d.rule.ReadSecret?
    ensures InRange(inp, steps[k].d.interval) && SecretRead(ReplayAt(inp, steps, steps[k].d.interval), steps[k].fact)
  {
    hide Met, Roots, Keeps, Shaped, ReplayAt;
    BackedAt(inp, view, steps, envs, creds, k);
  }

  /** The replay accepts a step of the witness exactly when, if it is evidence, the input claims it,
      and otherwise the tokens it uses are of the accounts they were last taken for. */
  lemma StepPasses(inp: Input, view: Perspective, steps: seq<Step>, envs: map<int, Env>, creds: map<CredId, Cred>, k: nat)
    requires WellFormed(inp) && Replayable(inp) && InputsUsed(inp, creds)
    requires Backed(inp, view, steps, envs, creds) && Supported(inp, steps, envs) && Ordered(steps) && k < |steps|
    ensures StepAccepted(inp, view, steps, k) <==>
      if steps[k].d.rule.Evidence? then DirectlyClaimed(inp, view, steps[k].fact) else StepHolds(inp, steps, k)
  {
    hide Backed, Supported, Plain, Replayable, InputsUsed, FactsOf, DerivedBy, ReplayAt, Check, Met, EvidenceFacts,
      EvidenceFits, DirectlyClaimed, TokenSource, SecretRead, Effect, Rooted, PremisesFirst, Ran, StepHolds;
    var s := steps[k];
    BackedAt(inp, view, steps, envs, creds, k);
    assert PremisesFirst(steps, k);
    if s.d.rule.Evidence? {
      EvidencePasses(inp, view, s.fact);
    } else {
      IntervalInRange(inp, steps, envs, s.d.interval);
      ConditionsPass(inp, view, steps, envs, creds, k);
      if s.d.rule.ObtainToken? { TokenStepDerives(inp, view, steps, envs, creds, k); }
      if s.d.rule.ReadSecret? { ReadPasses(inp, view, steps, envs, creds, k); }
    }
  }

  lemma ConditionsPass(inp: Input, view: Perspective, steps: seq<Step>, envs: map<int, Env>, creds: map<CredId, Cred>, k: nat)
    requires WellFormed(inp) && Replayable(inp) && InputsUsed(inp, creds)
    requires Backed(inp, view, steps, envs, creds) && Supported(inp, steps, envs) && Ordered(steps) && k < |steps| && !steps[k].d.rule.Evidence?
    requires InRange(inp, steps[k].d.interval)
    ensures (forall c :: c in steps[k].d.conditions ==>
              Check(inp, ReplayAt(inp, steps, steps[k].d.interval), DerivedBy(inp, steps, k), steps[k].d.interval, c)) <==> StepHolds(inp, steps, k)
  {
    hide Backed, Supported, Plain, Replayable, InputsUsed, FactsOf, DerivedBy, ReplayAt, Check, Ran, Ordered;
    forall c | c in steps[k].d.conditions
      ensures Check(inp, ReplayAt(inp, steps, steps[k].d.interval), DerivedBy(inp, steps, k), steps[k].d.interval, c)
         <==> (c.CredentialChecked? && c.cred.Projected? ==>
                 forall j :: 0 <= j < k && steps[j].fact == Possesses(c.cred) ==> Ran(inp, steps, j, c.cred.pod) == Ran(inp, steps, k, c.cred.pod))
    {
      ConditionChecked(inp, view, steps, envs, creds, k, c);
    }
    if StepHolds(inp, steps, k) {
      forall c, j | c in steps[k].d.conditions && c.CredentialChecked? && c.cred.Projected? && 0 <= j < k && steps[j].fact == Possesses(c.cred)
        ensures Ran(inp, steps, j, c.cred.pod) == Ran(inp, steps, k, c.cred.pod)
      {
        assert UseHolds(inp, steps, j, k);
      }
    }
  }

  lemma IntervalInRange(inp: Input, steps: seq<Step>, envs: map<int, Env>, i: int)
    requires Supported(inp, steps, envs) && i in envs
    ensures InRange(inp, i)
  {
    hide Supports, Shaped;
  }

  // ---------------------------------------------------------------- a run backs its witnesses

  function Endings(first: map<int, Env>, stages: seq<State>): map<int, Env> { PastOf(first, stages, |stages|) }

  lemma EndingsAre(first: map<int, Env>, stages: seq<State>, i: int)
    requires first.Keys <= {-1}
    ensures i in Endings(first, stages) <==> 0 <= i < |stages| || i in first
    ensures 0 <= i < |stages| ==> Endings(first, stages)[i] == stages[i].env
    ensures i in first ==> Endings(first, stages)[i] == first[i]
  {
  }

  lemma TableBacks(inp: Input, view: Perspective, first: map<int, Env>, stages: seq<State>, rank: map<Fact, nat>, goal: Fact, steps: seq<Step>)
    requires |stages| == |inp.actions| + 1 && first.Keys <= {-1}
    requires Told(SceneOf(inp, view, PastOf(first, stages, |inp.actions|)), |inp.actions|, stages[|inp.actions|], rank)
    requires goal in stages[|inp.actions|].eph && Linear(stages[|inp.actions|].facts, stages[|inp.actions|].eph, goal, steps)
    ensures Backed(inp, view, steps, Endings(first, stages), stages[|inp.actions|].creds)
    ensures InputsUsed(inp, stages[|inp.actions|].creds) && steps[|steps| - 1].d.interval == |inp.actions|
  {
    hide Explained, EvidenceFacts, Ordered, Distinct, Ranked, Endings;
    var n := |inp.actions|;
    var s, sc := stages[n], SceneOf(inp, view, PastOf(first, stages, n));
    forall st | st in steps
      ensures StepBacked(inp, view, st, Endings(first, stages), s.creds)
    {
      assert steps == steps[..|steps| - 1] + [steps[|steps| - 1]];
      assert Accounted(sc, n, s, st.fact, st.d);
      EndingsAre(first, stages, st.d.interval);
    }
  }

  lemma BackedRoots(inp: Input, view: Perspective, first: map<int, Env>, stages: seq<State>, creds: map<CredId, Cred>, steps: seq<Step>)
    requires |stages| == |inp.actions| + 1 && first.Keys <= {-1} && Backed(inp, view, steps, Endings(first, stages), creds)
    ensures RootsLive(inp, stages, steps)
    ensures forall u :: u in Roots(steps) ==> u.interval >= -1 && (u.interval == -1 ==> -1 in first)
  {
    hide Met, EvidenceFacts, Rooted, Endings, Token;
    forall u | u in Roots(steps)
      ensures u.interval >= -1 && (u.interval == -1 ==> -1 in first)
      ensures 0 <= u.interval <= |inp.actions| ==> LiveIn(stages[u.interval].env, u)
    {
      var s :| s in steps && Declared(s).Some? && Declared(s).value == u;
      assert StepBacked(inp, view, s, Endings(first, stages), creds);
      EndingsAre(first, stages, s.d.interval);
    }
  }

  lemma StageShaped(inp: Input, start: State, stages: seq<State>, k: nat)
    requires WellFormed(inp) && Ladder(inp, Now, start, stages) && k <= |inp.actions|
    requires Good(0, start) && start.env == Reconcile(inp.env)
    ensures Shaped(stages[k].env) && Accounts(inp, stages[k].env)
  {
    hide Ladder, Reconcile, Plain, CredsKnown, Shaped, ModelsKnown, Base;
    NonEmptyApi(inp);
    LadderLength(inp, Now, start, stages);
    LadderGood(inp, Now, start, stages, k);
    BaseAccounts(inp, k);
    InvAccounts(Base(inp, k), stages[k].env);
  }

  lemma InvAccounts(base: Env, e: Env)
    requires EnvInv(base, e)
    ensures e.sas == base.sas
  {
    hide Shaped;
    assert Native(e).sas == e.sas;
  }

  lemma {:induction false} BaseAccounts(inp: Input, k: nat)
    requires k <= |inp.actions|
    ensures Accounts(inp, Base(inp, k))
  {
    hide Reconcile, Defend;
    if k == 0 {
      ReconcileOnlyPods(inp.env);
    } else {
      BaseAccounts(inp, k - 1);
      DefendShrinks(Base(inp, k - 1), inp.actions[k - 1]);
      ReconcileOnlyPods(Defend(Base(inp, k - 1), inp.actions[k - 1]));
    }
  }

  lemma FirstEnds(inp: Input, view: Perspective, start: State, first: map<int, Env>, steps: seq<Step>)
    requires WellFormed(inp) && Replayable(inp) && Begins(inp, view, start, first) && -1 in first && Distinct(steps)
    requires forall u :: u in Roots(steps) ==> u.interval >= -1
    ensures Supports(first[-1], Roots(steps), ReplayHistory(inp, steps)) && Shaped(first[-1]) && first[-1].time == inp.env.time
    ensures Accounts(inp, first[-1])
  {
    hide Saturates, HistoryStart, Supports, Shaped, Plain, HistoryApart, HistoryRuns, ReplayHistory, Roots;
    NonEmptyApi(inp);
    var h :| Saturates(Ctx(inp.st, Window(inp.historyStart), -1), HistoryStart(inp, view, Full), h) && first == map[-1 := h.env];
    HistorySupported(inp, view, h, steps);
    HistoryAccounts(inp, view, h);
  }

  lemma HistoryAccounts(inp: Input, view: Perspective, h: State)
    requires WellFormed(inp) && Saturates(Ctx(inp.st, Window(inp.historyStart), -1), HistoryStart(inp, view, Full), h)
    ensures Accounts(inp, h.env)
  {
    hide Saturates, HistoryStart, Good, EnvInv, ZeroReplicas;
    HistoryEnds(inp, view, h);
    InvAccounts(HistoryEnv(inp, view, Full), h.env);
  }

  lemma RunSupports(inp: Input, view: Perspective, start: State, first: map<int, Env>, stages: seq<State>, creds: map<CredId, Cred>, steps: seq<Step>)
    requires WellFormed(inp) && Replayable(inp) && Ladder(inp, Now, start, stages) && Distinct(steps)
    requires Good(0, start) && start.env == Reconcile(inp.env) && Begins(inp, view, start, first)
    requires Backed(inp, view, steps, Endings(first, stages), creds)
    ensures Supported(inp, steps, Endings(first, stages))
  {
    hide Good, Ladder, Reconcile, Plain, Begins, Replayable, Distinct, Supports, Shaped, Accounts, Backed, RootsLive, Endings, ReplayEnv, ReplayHistory, Roots, Restrict;
    NonEmptyApi(inp);
    LadderLength(inp, Now, start, stages);
    BeginsKeys(inp, view, start, first);
    BackedRoots(inp, view, first, stages, creds, steps);
    forall i | i in Endings(first, stages)
      ensures -1 <= i <= |inp.actions| && Supports(Endings(first, stages)[i], Roots(steps), ReplayAt(inp, steps, i))
      ensures Shaped(Endings(first, stages)[i]) && (i == -1 ==> Endings(first, stages)[i].time == inp.env.time)
      ensures Accounts(inp, Endings(first, stages)[i])
    {
      EndingsAre(first, stages, i);
      if i == -1 {
        FirstEnds(inp, view, start, first, steps);
      } else {
        ReplayRestricts(inp, start, stages, steps, i);
        RestrictionSupports(stages[i].env, Roots(steps));
        StageShaped(inp, start, stages, i);
      }
    }
  }

  // ---------------------------------------------------------------- the theorem

  /** Every historical Pod is also claimed as controlled, and no claim that counts is repeated as
      one that does not. */
  ghost predicate HistoryClaimed(inp: Input, view: Perspective) {
    && (forall h :: h in inp.historical && KeptHistorical(h, view, Full) ==> DirectlyClaimed(inp, view, ControlsPod(h.uid)))
    && (forall i, j :: 0 <= i < j < |inp.facts| && inp.facts[i].claim == inp.facts[j].claim && Kept(inp.facts[i], view, Full) ==>
          Kept(inp.facts[j], view, Full))
  }

  lemma FactOfInjective(a: Claim, b: Claim)
    requires FactOf(a) == FactOf(b)
    ensures a == b
  {
  }

  lemma AllClaimed(inp: Input, view: Perspective, f: Fact)
    requires HistoryClaimed(inp, view) && f in EvidenceFacts(inp, view)
    ensures DirectlyClaimed(inp, view, f)
  {
    hide DirectlyClaimed;
    if f in InitialFacts(inp, view, Full) {
      var g :| g in inp.facts && Kept(g, view, Full) && FactOf(g.claim) == f;
      var k :| 0 <= k < |inp.facts| && inp.facts[k] == g;
      LastKept(inp, view, f, k);
    }
  }

  lemma LastKept(inp: Input, view: Perspective, f: Fact, k: nat)
    requires HistoryClaimed(inp, view) && k < |inp.facts| && FactOf(inp.facts[k].claim) == f && Kept(inp.facts[k], view, Full)
    ensures DirectlyClaimed(inp, view, f)
  {
    var i := ClaimedIsLast(inp, inp.facts, f);
    FactOfInjective(inp.facts[i].claim, inp.facts[k].claim);
    assert LastClaim(inp.facts, i, f);
  }

  /** Every token of the witness is used while its Pod runs as the account it ran as where the token
      was last taken. */
  ghost predicate UsesHold(inp: Input, steps: seq<Step>) {
    forall k :: 0 <= k < |steps| && !steps[k].d.rule.Evidence? ==> StepHolds(inp, steps, k)
  }

  ghost predicate EvidenceClaimed(inp: Input, view: Perspective, steps: seq<Step>) {
    forall s :: s in steps && s.d.rule.Evidence? ==> DirectlyClaimed(inp, view, s.fact)
  }

  lemma LastIsGoal(facts: map<Fact, Derivation>, goals: map<Fact, Derivation>, goal: Fact, steps: seq<Step>)
    requires goal in goals && Linear(facts, goals, goal, steps)
    ensures Ordered(steps) && Distinct(steps) && steps != []
    ensures LastInterval(steps, goal) == Some(steps[|steps| - 1].d.interval)
  {
    hide Ordered, Distinct, FromTable;
  }

  /** The run behind a witness: it backs every step, and the replay's environments support it. */
  lemma RunBacks(inp: Input, view: Perspective, stages: seq<State>, goal: Fact, steps: seq<Step>) returns (start: State, first: map<int, Env>)
    requires WellFormed(inp) && Replayable(inp) && EngineRun(inp, view, Full, stages) && |stages| == |inp.actions| + 1
    requires goal in stages[|inp.actions|].eph && Linear(stages[|inp.actions|].facts, stages[|inp.actions|].eph, goal, steps)
    ensures Ladder(inp, Now, start, stages) && Good(0, start) && start.env == Reconcile(inp.env) && Begins(inp, view, start, first) && first.Keys <= {-1}
    ensures var envs, creds := Endings(first, stages), stages[|inp.actions|].creds;
      Backed(inp, view, steps, envs, creds) && InputsUsed(inp, creds) && Supported(inp, steps, envs)
    ensures Ordered(steps) && Distinct(steps) && steps != [] && LastInterval(steps, goal) == Some(|inp.actions|)
  {
    hide Good, Ladder, StartsMain, Reconcile, Plain, Begins, Replayable, Told, Backed, Supported, InputsUsed, Linear,
      Ordered, Distinct, Endings, EvidenceFacts, LastInterval, SceneOf;
    NonEmptyApi(inp);
    var n := |inp.actions|;
    start :| StartsMain(inp, view, Full, start) && Ladder(inp, Now, start, stages);
    StartGood(inp, view, Full, start);
    var rank0;
    first, rank0 := StartTold(inp, view, start);
    BeginsKeys(inp, view, start, first);
    var rank := StageTold(inp, view, start, stages, first, rank0, n);
    LastIsGoal(stages[n].facts, stages[n].eph, goal, steps);
    TableBacks(inp, view, first, stages, rank, goal, steps);
    RunSupports(inp, view, start, first, stages, stages[n].creds, steps);
  }

  /** The witness of any goal of a full run replays without objection, history and refreshed
      tokens included, exactly when the input directly claims every fact it takes as evidence and
      every token is used while its Pod runs as the account it was last taken for. */
  lemma WitnessReplays(inp: Input, view: Perspective, stages: seq<State>, goal: Fact, steps: seq<Step>)
    requires WellFormed(inp) && Replayable(inp) && EngineRun(inp, view, Full, stages) && |stages| == |inp.actions| + 1
    requires goal in stages[|inp.actions|].eph && Linear(stages[|inp.actions|].facts, stages[|inp.actions|].eph, goal, steps)
    ensures Replays(inp, view, steps, goal) <==> EvidenceClaimed(inp, view, steps) && UsesHold(inp, steps)
  {
    hide Good, Ladder, Reconcile, Plain, Begins, Replayable, Backed, Supported, InputsUsed, StepAccepted, Linear, EngineRun,
      Ordered, Distinct, Endings, DirectlyClaimed, StepHolds, LastInterval;
    var start, first := RunBacks(inp, view, stages, goal, steps);
    forall k | 0 <= k < |steps|
      ensures StepAccepted(inp, view, steps, k) <==>
        if steps[k].d.rule.Evidence? then DirectlyClaimed(inp, view, steps[k].fact) else StepHolds(inp, steps, k)
    {
      StepPasses(inp, view, steps, Endings(first, stages), stages[|inp.actions|].creds, k);
    }
  }

  lemma HistoryClaimedSteps(inp: Input, view: Perspective, steps: seq<Step>, envs: map<int, Env>, creds: map<CredId, Cred>)
    requires Backed(inp, view, steps, envs, creds) && HistoryClaimed(inp, view)
    ensures EvidenceClaimed(inp, view, steps)
  {
    hide Explained, EvidenceFacts, HistoryClaimed, DirectlyClaimed;
    forall s | s in steps && s.d.rule.Evidence?
      ensures DirectlyClaimed(inp, view, s.fact)
    {
      assert StepBacked(inp, view, s, envs, creds);
      AllClaimed(inp, view, s.fact);
    }
  }

  lemma EndingsHome(inp: Input, view: Perspective, start: State, first: map<int, Env>, stages: seq<State>, i: int)
    requires Consistent(inp) && inp.st.api != [] && Ladder(inp, Now, start, stages) && |stages| == |inp.actions| + 1
    requires Good(0, start) && start.env == Reconcile(inp.env) && Begins(inp, view, start, first) && first.Keys <= {-1}
    requires i in Endings(first, stages)
    ensures EnvHome(OriginOf(inp), Endings(first, stages)[i])
  {
    hide Good, Ladder, Reconcile, Endings, EnvHome, OriginOf, Consistent, Saturates, HistoryStart, HistoryRuns;
    EndingsAre(first, stages, i);
    if i == -1 {
      var h :| Saturates(Ctx(inp.st, Window(inp.historyStart), -1), HistoryStart(inp, view, Full), h) && first == map[-1 := h.env];
      HistoryEndsHome(inp, view, Full, h);
    } else {
      StageHome(inp, Now, start, stages, i);
    }
  }

  /** When no UID changes its account, neither does any token. */
  lemma HomesHold(inp: Input, view: Perspective, start: State, first: map<int, Env>, stages: seq<State>, creds: map<CredId, Cred>, steps: seq<Step>)
    requires Consistent(inp) && inp.st.api != [] && Ladder(inp, Now, start, stages) && |stages| == |inp.actions| + 1
    requires Good(0, start) && start.env == Reconcile(inp.env) && Begins(inp, view, start, first) && first.Keys <= {-1}
    requires Backed(inp, view, steps, Endings(first, stages), creds) && Supported(inp, steps, Endings(first, stages)) && Ordered(steps)
    ensures UsesHold(inp, steps)
  {
    hide Good, Ladder, Reconcile, Begins, Endings, EnvHome, OriginOf, Plain, Supported, Backed, Ordered, Ran, Met, Effect, Rooted, EvidenceFacts, Roots, Keeps;
    var envs := Endings(first, stages);
    forall k, j | 0 <= j < k < |steps| && !steps[k].d.rule.Evidence?
      ensures UseHolds(inp, steps, j, k)
    {
      forall c | c in steps[k].d.conditions && c.CredentialChecked? && c.cred.Projected? && steps[j].fact == Possesses(c.cred)
        ensures Ran(inp, steps, j, c.cred.pod) == Ran(inp, steps, k, c.cred.pod)
      {
        var id := c.cred;
        BackedAt(inp, view, steps, envs, creds, k);
        TokenTaken(inp, view, steps, envs, creds, j, id);
        var e := envs[steps[k].d.interval];
        assert Met(inp.st, inp.historyStart, steps[k].d.interval, e, creds, c);
        MetThere(inp.st, inp.historyStart, steps[k].d.interval, e, creds, id, c.time);
        UseRan(inp, view, steps, envs, creds, k, id.pod);
        EndingsHome(inp, view, start, first, stages, steps[j].d.interval);
        EndingsHome(inp, view, start, first, stages, steps[k].d.interval);
        HomeTwice(OriginOf(inp), envs[steps[j].d.interval], e, id.pod);
      }
    }
  }

  lemma MetThere(st: Static, start: Option<int>, i: int, e: Env, creds: map<CredId, Cred>, id: CredId, t: int)
    requires id.Projected? && Met(st, start, i, e, creds, CredentialChecked(id, t))
    ensures id.pod in e.pods
  {
  }

  lemma HomeTwice(o: Origin, e: Env, f: Env, u: Uid)
    requires EnvHome(o, e) && EnvHome(o, f) && u in e.pods && u in f.pods
    ensures e.pods[u].Acct() == f.pods[u].Acct()
  {
  }

  /** So a witness always replays when no UID changes its account, each historical Pod is also claimed
      as controlled, and no claim is repeated as an inferred one. */
  lemma ConsistentReplays(inp: Input, view: Perspective, stages: seq<State>, goal: Fact, steps: seq<Step>)
    requires Consistent(inp) && Replayable(inp) && HistoryClaimed(inp, view) && EngineRun(inp, view, Full, stages) && |stages| == |inp.actions| + 1
    requires goal in stages[|inp.actions|].eph && Linear(stages[|inp.actions|].facts, stages[|inp.actions|].eph, goal, steps)
    ensures Replays(inp, view, steps, goal)
  {
    hide Good, Ladder, Reconcile, Plain, Begins, Replayable, Backed, Supported, InputsUsed, Linear, EngineRun, HistoryClaimed, Replays,
      Ordered, Distinct, Endings, UsesHold, EvidenceClaimed, LastInterval, OriginOf, Origin.ReplicaConsistent;
    NonEmptyApi(inp);
    var start, first := RunBacks(inp, view, stages, goal, steps);
    HistoryClaimedSteps(inp, view, steps, Endings(first, stages), stages[|inp.actions|].creds);
    HomesHold(inp, view, start, first, stages, stages[|inp.actions|].creds, steps);
    WitnessReplays(inp, view, stages, goal, steps);
  }

  // ---------------------------------------------------------------- emitting and replaying

  lemma RunRanked(inp: Input, view: Perspective, stages: seq<State>) returns (rank: map<Fact, nat>)
    requires WellFormed(inp) && EngineRun(inp, view, Full, stages) && |stages| == |inp.actions| + 1
    ensures var s := stages[|inp.actions|];
      && Ranked(s.facts, rank)
      && forall g :: g in s.eph ==> g !in s.facts && forall p :: p in s.eph[g].premises ==> p in s.facts
  {
    hide Good, Ladder, StartsMain, Reconcile, Plain, Begins, Told, SceneOf;
    NonEmptyApi(inp);
    var start :| StartsMain(inp, view, Full, start) && Ladder(inp, Now, start, stages);
    StartGood(inp, view, Full, start);
    var first, rank0 := StartTold(inp, view, start);
    rank := StageTold(inp, view, start, stages, first, rank0, |inp.actions|);
    LadderGood(inp, Now, start, stages, |inp.actions|);
    ToldPremises(SceneOf(inp, view, PastOf(first, stages, |inp.actions|)), |inp.actions|, stages[|inp.actions|], rank);
    GoalsAside(inp, stages[|inp.actions|]);
  }

  lemma ToldPremises(sc: Scene, now: int, s: State, rank: map<Fact, nat>)
    requires Told(sc, now, s, rank)
    ensures Ranked(s.facts, rank)
    ensures forall g :: g in s.eph ==> forall p :: p in s.eph[g].premises ==> p in s.facts
  {
    hide Explained;
  }

  lemma GoalsAside(inp: Input, s: State)
    requires StageGood(inp, s, |inp.actions|)
    ensures forall g :: g in s.eph ==> g !in s.facts
  {
    hide EnvInv, Shaped, CredsKnown, ModelsKnown, OnlyModels;
  }

  /** Runs a view in full mode, emits the witness of `goal` if it is one of its goals, and replays
      it. Within bounds every goal has a complete witness, and the replay objects exactly to unclaimed
      evidence and to tokens used for another account than they were last taken for. */
  method EmitAndVerify(inp: Input, view: Perspective, goal: Fact) returns (r: Outcome, steps: seq<Step>, problems: nat)
    requires WellFormed(inp) && Replayable(inp)
    ensures !r.boundsExceeded ==> inp.st.api != [] && Finished(inp, view, Full, r)
    ensures !r.boundsExceeded && goal in r.goals ==> Linear(r.facts, r.goals, goal, steps)
    ensures !r.boundsExceeded && goal in r.goals ==> (problems == 0 <==> EvidenceClaimed(inp, view, steps) && UsesHold(inp, steps))
    ensures !r.boundsExceeded && goal in r.goals && Consistent(inp) && HistoryClaimed(inp, view) ==> problems == 0
  {
    hide Parsed, NothingReserved, OwnIds, OneHistory, Replayable, EngineRun, Replays, Ordered, Distinct, FromTable, Ranked, RecordsOf, NotedThroughout,
      HistoryClaimed, EvidenceClaimed, UsesHold, Consistent, Finished;
    r := RunView(inp, view, Full);
    steps, problems := [], 0;
    if r.boundsExceeded || goal !in r.goals { return; }
    ghost var stages := FinishedRun(inp, view, Full, r);
    ghost var rank := RunRanked(inp, view, stages);
    steps := Witness(r.facts, r.goals, goal, rank);
    problems := VerifyWitness(inp, view, steps, goal);
    WitnessReplays(inp, view, stages, goal, steps);
    if Consistent(inp) && HistoryClaimed(inp, view) { ConsistentReplays(inp, view, stages, goal, steps); }
  }
}
