/** Who runs under a UID, and which tokens under its name are still worth having. The engine keeps
    one token per Pod UID and audience, so a token may stand in the way of another account's or be
    overwritten by it. Nothing is lost by that as long as no two Pods clash. */
module Tenure {
  import opened Model
  import opened Semantics
  import opened Attack
  import opened Rules
  import opened Cover
  import opened Fixpoint

  // ---------------------------------------------------------------- clashes

  /** The UID's Pod in `f` runs as another account than its Pod in `e`, at the same time; both have
      their service account; and the API would take a token of the later Pod, but only for audiences
      the earlier Pod had tokens for too. */
  predicate Clashes(st: Static, e: Env, f: Env, u: Uid)
    requires st.api != []
  {
    && u in e.pods && u in f.pods && e.time == f.time
    && e.pods[u].Acct() != f.pods[u].Acct() && e.pods[u].Acct() in e.sas && f.pods[u].Acct() in f.sas
    && (exists aud :: aud in Audiences(st, f.pods[u]) && aud in st.api)
    && (forall aud :: aud in Audiences(st, f.pods[u]) && aud in st.api ==> aud in Audiences(st, e.pods[u]))
  }

  // ---------------------------------------------------------------- succession

  /** The account a Pod recreated under a UID runs as: that of its controller. */
  function Heir(ctrls: map<Uid, Controller>, u: Uid): Account {
    if Created(u) then Class(u)
    else if u.Replica? && u.owner in ctrls then ctrls[u.owner].Acct()
    else Account("", "")
  }

  /** A Pod of `f` was already there in `e`, or has been recreated since. */
  ghost predicate Succeeds(ctrls: map<Uid, Controller>, e: Env, f: Env) {
    && e.time <= f.time
    && (forall a :: a in f.sas ==> a in e.sas && e.sas[a] == f.sas[a])
    && (forall u :: u in f.pods ==> (u in e.pods && e.pods[u] == f.pods[u]) || f.pods[u].Acct() == Heir(ctrls, u))
  }

  lemma SucceedsSelf(ctrls: map<Uid, Controller>, e: Env)
    ensures Succeeds(ctrls, e, e)
  {
  }

  lemma SucceedsThen(ctrls: map<Uid, Controller>, e: Env, f: Env, g: Env)
    requires Succeeds(ctrls, e, f) && Succeeds(ctrls, f, g)
    ensures Succeeds(ctrls, e, g)
  {
  }

  lemma DefendSucceeds(ctrls: map<Uid, Controller>, e: Env, a: Action)
    requires forall c :: c in e.ctrls ==> e.ctrls[c].Acct() == if Created(c) then Class(c) else if c in ctrls then ctrls[c].Acct() else Account("", "")
    ensures Succeeds(ctrls, e, Reconcile(Defend(e, a)))
  {
    hide Reconcile, Defend;
    var d := Defend(e, a);
    DefendShrinks(e, a);
    ReconcileSucceeds(ctrls, d);
    assert Succeeds(ctrls, e, d);
    SucceedsThen(ctrls, e, d, Reconcile(d));
  }

  lemma ReconcileSucceeds(ctrls: map<Uid, Controller>, e: Env)
    requires forall c :: c in e.ctrls ==> e.ctrls[c].Acct() == if Created(c) then Class(c) else if c in ctrls then ctrls[c].Acct() else Account("", "")
    ensures Succeeds(ctrls, e, Reconcile(e))
  {
    hide Reconcile;
    ReconcileKeepsPods(e);
    ReconcileOnlyPods(e);
  }

  // ---------------------------------------------------------------- where tokens come from

  /** `c` is the token `id` names, taken in `e`. */
  predicate Minted(st: Static, e: Env, id: CredId, c: Cred)
    requires st.api != []
  {
    && id.Projected? && id.pod in e.pods && e.pods[id.pod].Acct() in e.sas && id.audience in Audiences(st, e.pods[id.pod])
    && c == Token(st, e, id.pod, id.audience)
  }

  ghost predicate MintedSince(st: Static, line: seq<State>, j: int, k: int, id: CredId, c: Cred)
    requires st.api != []
  {
    exists i :: j <= i <= k && 0 <= i < |line| && Minted(st, line[i].env, id, c)
  }

  /** The ends of successive saturations: the environments succeed one another, and the table of
      credentials only ever changes by taking tokens. */
  ghost predicate Line(st: Static, ctrls: map<Uid, Controller>, line: seq<State>)
    requires st.api != []
  {
    && (forall i, j :: 0 <= i < j < |line| ==> Succeeds(ctrls, line[i].env, line[j].env))
    && (forall k, id :: 0 <= k < |line| && id in line[k].creds && id.Projected? ==> MintedSince(st, line, 0, k, id, line[k].creds[id]))
    && (forall j, k, id :: 0 <= j < k < |line| && id in line[j].creds ==>
          id in line[k].creds && (line[k].creds[id] == line[j].creds[id] || MintedSince(st, line, j + 1, k, id, line[k].creds[id])))
  }

  /** No Pod of the last environment clashes with an earlier one. */
  ghost predicate NoClashAt(st: Static, line: seq<State>, k: nat)
    requires st.api != [] && k < |line|
  {
    forall i, u :: 0 <= i < k ==> !Clashes(st, line[i].env, line[k].env, u)
  }

  function AllCreds(line: seq<State>, k: nat): set<Cred>
    requires k < |line|
  {
    set j, id | 0 <= j <= k && id in line[j].creds :: line[j].creds[id]
  }

  /** The attacker with every token it ever took, overwritten ones included. */
  function Grand(line: seq<State>, k: nat): World
    requires k < |line|
  {
    World(line[k].env, View(line[k]).att.(creds := AllCreds(line, k)))
  }

  lemma InAllCreds(line: seq<State>, k: nat, j: nat, id: CredId)
    requires j <= k < |line| && id in line[j].creds
    ensures line[j].creds[id] in AllCreds(line, k)
  {
  }

  lemma LineMint(st: Static, ctrls: map<Uid, Controller>, line: seq<State>, k: nat, id: CredId) returns (i: nat)
    requires st.api != [] && Line(st, ctrls, line) && k < |line| && id in line[k].creds && id.Projected?
    ensures i <= k && Minted(st, line[i].env, id, line[k].creds[id])
  {
    hide Minted, Succeeds;
    assert MintedSince(st, line, 0, k, id, line[k].creds[id]);
    i :| 0 <= i <= k && 0 <= i < |line| && Minted(st, line[i].env, id, line[k].creds[id]);
  }

  lemma LineKept(st: Static, ctrls: map<Uid, Controller>, line: seq<State>, j: nat, k: nat, id: CredId) returns (i: nat)
    requires st.api != [] && Line(st, ctrls, line) && j < k < |line| && id in line[j].creds
    ensures id in line[k].creds
    ensures line[k].creds[id] != line[j].creds[id] ==> j < i <= k && Minted(st, line[i].env, id, line[k].creds[id])
  {
    hide Minted, Succeeds;
    i := 0;
    if line[k].creds[id] != line[j].creds[id] {
      assert MintedSince(st, line, j + 1, k, id, line[k].creds[id]);
      i :| j + 1 <= i <= k && 0 <= i < |line| && Minted(st, line[i].env, id, line[k].creds[id]);
    }
  }

  lemma LineSucceeds(st: Static, ctrls: map<Uid, Controller>, line: seq<State>, i: nat, j: nat)
    requires st.api != [] && Line(st, ctrls, line) && i <= j < |line|
    ensures Succeeds(ctrls, line[i].env, line[j].env)
  {
    hide Minted, MintedSince;
    if i == j { SucceedsSelf(ctrls, line[i].env); }
  }

  /** Accounts that differ: the later one is the heir, and it stays. */
  lemma Turnover(st: Static, ctrls: map<Uid, Controller>, line: seq<State>, i: nat, j: nat, k: nat, u: Uid)
    requires st.api != [] && Line(st, ctrls, line) && i < j <= k < |line|
    requires u in line[i].env.pods && u in line[j].env.pods && line[i].env.pods[u].Acct() != line[j].env.pods[u].Acct()
    ensures line[j].env.pods[u].Acct() == Heir(ctrls, u)
    ensures u in line[k].env.pods ==> line[k].env.pods[u].Acct() == Heir(ctrls, u)
  {
    hide Line, Heir;
    LineSucceeds(st, ctrls, line, i, j);
    LineSucceeds(st, ctrls, line, j, k);
  }

  /** Whoever is not the heir is the one Pod that was there first. */
  lemma Predecessor(st: Static, ctrls: map<Uid, Controller>, line: seq<State>, i: nat, m: nat, u: Uid)
    requires st.api != [] && Line(st, ctrls, line) && i < |line| && m < |line|
    requires u in line[i].env.pods && u in line[m].env.pods
    requires line[i].env.pods[u].Acct() != Heir(ctrls, u) && line[m].env.pods[u].Acct() != Heir(ctrls, u)
    ensures line[i].env.pods[u] == line[m].env.pods[u]
  {
    hide Line, Heir;
    if i <= m { LineSucceeds(st, ctrls, line, i, m); } else { LineSucceeds(st, ctrls, line, m, i); }
  }

  // ---------------------------------------------------------------- overwritten tokens

  /** A token that is still usable has one under its id that is as good. */
  lemma StillTabled(st: Static, ctrls: map<Uid, Controller>, line: seq<State>, k: nat, c: Cred) returns (id: CredId)
    requires st.Valid() && Line(st, ctrls, line) && k < |line| && c in AllCreds(line, k) && CanUse(st, line[k].env, c, Now)
    ensures id in line[k].creds && line[k].creds[id].user == c.user && CanUse(st, line[k].env, line[k].creds[id], Now)
  {
    hide Line, Succeeds, Heir, Audiences, Minted, CanUse;
    var j;
    j, id :| 0 <= j <= k && id in line[j].creds && line[j].creds[id] == c;
    if j < k {
      var i := LineKept(st, ctrls, line, j, k, id);
      if line[k].creds[id] != c {
        MintedProjects(st, line[i].env, id, line[k].creds[id]);
        var h := LineMint(st, ctrls, line, j, id);
        SameRunner(st, ctrls, line, h, i, k, id, c, line[k].creds[id]);
        LineSucceeds(st, ctrls, line, h, i);
        RefreshedUse(st, ctrls, line[h].env, line[i].env, line[k].env, id, c, line[k].creds[id]);
      }
    }
  }

  lemma MintedProjects(st: Static, e: Env, id: CredId, c: Cred)
    requires st.api != [] && Minted(st, e, id, c)
    ensures id.Projected? && id.pod in e.pods
  {
  }

  /** Had the account changed in between, the older token would no longer be usable. */
  lemma SameRunner(st: Static, ctrls: map<Uid, Controller>, line: seq<State>, h: nat, i: nat, k: nat, id: CredId, c: Cred, d: Cred)
    requires st.Valid() && Line(st, ctrls, line) && h < i <= k < |line| && CanUse(st, line[k].env, c, Now)
    requires Minted(st, line[h].env, id, c) && Minted(st, line[i].env, id, d)
    ensures line[h].env.pods[id.pod].Acct() == line[i].env.pods[id.pod].Acct()
  {
    hide Line, Heir, Audiences;
    if line[h].env.pods[id.pod].Acct() != line[i].env.pods[id.pod].Acct() { Turnover(st, ctrls, line, h, i, k, id.pod); }
  }

  lemma RefreshedUse(st: Static, ctrls: map<Uid, Controller>, e: Env, f: Env, g: Env, id: CredId, c: Cred, d: Cred)
    requires st.api != [] && Minted(st, e, id, c) && Minted(st, f, id, d) && e.pods[id.pod].Acct() == f.pods[id.pod].Acct()
    requires Succeeds(ctrls, e, f) && CanUse(st, g, c, Now)
    ensures d.user == c.user && CanUse(st, g, d, Now)
  {
  }

  // ---------------------------------------------------------------- tokens that stand in the way

  lemma StoredToken(st: Static, ctrls: map<Uid, Controller>, line: seq<State>, ctx: Ctx, k: nat, u: Uid, aud: string) returns (i: nat)
    requires st.Valid() && Line(st, ctrls, line) && k < |line| && ctx.st == st && Closed(ctx, line[k])
    requires Yields(st, View(line[k]), u, aud)
    ensures i <= k && Projected(u, aud) in line[k].creds && Minted(st, line[i].env, Projected(u, aud), line[k].creds[Projected(u, aud)])
    ensures line[i].env.time == line[k].env.time
  {
    hide Heir, Audiences, Line;
    var id := Projected(u, aud);
    assert !Ready(ctx, line[k], FireToken(u, aud));
    assert TokenCurrent(ctx, line[k], u, aud);
    i := LineMint(st, ctrls, line, k, id);
    LineSucceeds(st, ctrls, line, i, k);
  }

  lemma SameAccountToken(st: Static, ctrls: map<Uid, Controller>, line: seq<State>, i: nat, k: nat, u: Uid, aud: string, y: string)
    requires st.api != [] && Line(st, ctrls, line) && i <= k < |line| && Projected(u, y) in line[k].creds
    requires Minted(st, line[i].env, Projected(u, y), line[k].creds[Projected(u, y)]) && y in st.api && line[i].env.time == line[k].env.time
    requires u in line[k].env.pods && line[k].env.pods[u].Acct() in line[k].env.sas && line[i].env.pods[u].Acct() == line[k].env.pods[u].Acct()
    ensures HoldsToken(st, Grand(line, k), u, aud)
  {
    hide Audiences, Heir, Line;
    var d := line[k].creds[Projected(u, y)];
    LineSucceeds(st, ctrls, line, i, k);
    InAllCreds(line, k, k, Projected(u, y));
    assert AsGood(st, d, Token(st, line[k].env, u, aud));
  }

  lemma TokenOrEqual(st: Static, ctrls: map<Uid, Controller>, line: seq<State>, ctx: Ctx, k: nat, u: Uid, aud: string)
    requires st.Valid() && Line(st, ctrls, line) && k < |line| && ctx.st == st && Closed(ctx, line[k]) && NoClashAt(st, line, k)
    requires Yields(st, View(line[k]), u, aud) && aud in st.api
    ensures HoldsToken(st, Grand(line, k), u, aud)
  {
    hide Line, Closed, HoldsToken, Audiences, Heir;
    var i := StoredToken(st, ctrls, line, ctx, k, u, aud);
    var e, f := line[i].env, line[k].env;
    if e.pods[u].Acct() == f.pods[u].Acct() {
      SameAccountToken(st, ctrls, line, i, k, u, aud, aud);
    } else {
      assert !Clashes(st, e, f, u);
      var y :| y in Audiences(st, f.pods[u]) && y in st.api && y !in Audiences(st, e.pods[u]);
      var m := StoredToken(st, ctrls, line, ctx, k, u, y);
      Turnover(st, ctrls, line, i, k, k, u);
      if line[m].env.pods[u].Acct() != f.pods[u].Acct() { Predecessor(st, ctrls, line, i, m, u); }
      SameAccountToken(st, ctrls, line, m, k, u, aud, y);
    }
  }

  // ---------------------------------------------------------------- the fixpoint is saturated

  /** What the tables hold, the attacker with all its tokens holds, and acts as no one else. */
  lemma GrandExhausted(ctx: Ctx, line: seq<State>, k: nat, id: CredId)
    requires ctx.Valid() && k < |line| && Closed(ctx, line[k]) && Good(ctx.interval, line[k]) && Acts(ctx, line[k], id)
    ensures UserExhausted(ctx.st, Grand(line, k), line[k].creds[id].user)
  {
    hide Closed, Good, Acts, CanRead, MayExec, MayCreate;
    ClosedUser(ctx, line[k], id);
    var w, v := View(line[k]), Grand(line, k);
    forall a | PodRep(w, a)
      ensures PodRep(v, a)
    {
      var u :| u in w.env.pods && Standalone(u) && u.account == a && u in w.att.pods;
      assert u in v.env.pods && u in v.att.pods;
    }
    forall a | CtrlRep(w, a)
      ensures CtrlRep(v, a)
    {
      var c :| c in w.env.ctrls && CreatedDeploy(c) && c.account == a && c in w.att.ctrls;
      assert c in v.env.ctrls && c in v.att.ctrls;
    }
  }

  lemma UsableActs(ctx: Ctx, s: State, id: CredId)
    requires ctx.Valid() && !ctx.rule.Window? && CredsKnown(s) && id in s.creds && CanUse(ctx.st, s.env, s.creds[id], Now)
    ensures Acts(ctx, s, id)
  {
    assert Possesses(id) in s.facts;
  }

  lemma GoodCreds(k: int, s: State)
    requires Good(k, s)
    ensures CredsKnown(s)
  {
  }

  /** A fixpoint of the rules leaves the attacker nothing to gain from any single step, whatever
      tokens it took along the way. */
  lemma LineSaturated(st: Static, ctrls: map<Uid, Controller>, line: seq<State>, ctx: Ctx, k: nat)
    requires st.Valid() && Line(st, ctrls, line) && k < |line| && ctx.st == st && !ctx.rule.Window?
    requires Closed(ctx, line[k]) && Good(ctx.interval, line[k]) && NoClashAt(st, line, k)
    ensures Saturated(st, Now, Grand(line, k))
  {
    hide Line, Closed, Good, HoldsToken, Clashes, CanUse, Acts, UserExhausted;
    var w := Grand(line, k);
    ClosedOwns(ctx, line[k]);
    forall u, aud | Yields(st, w, u, aud)
      ensures HoldsToken(st, w, u, aud)
    {
      assert Yields(st, View(line[k]), u, aud);
      if aud in st.api { TokenOrEqual(st, ctrls, line, ctx, k, u, aud); } else { UselessToken(st, w, u, aud); }
    }
    GoodCreds(ctx.interval, line[k]);
    forall c | c in w.att.creds && CanUse(st, w.env, c, Now)
      ensures UserExhausted(st, w, c.user)
    {
      var id := StillTabled(st, ctrls, line, k, c);
      UsableActs(ctx, line[k], id);
      GrandExhausted(ctx, line, k, id);
    }
  }

  lemma UselessToken(st: Static, w: World, u: Uid, aud: string)
    requires u in w.env.pods && w.env.pods[u].Acct() in w.env.sas && aud !in st.api
    ensures HoldsToken(st, w, u, aud)
  {
  }

  /** Every objective violated with whatever token is among the goals of the fixpoint. */
  lemma LineGoals(st: Static, ctrls: map<Uid, Controller>, line: seq<State>, ctx: Ctx, k: nat, obj: Objective)
    requires st.Valid() && Line(st, ctrls, line) && k < |line| && ctx.st == st && !ctx.rule.Window?
    requires Closed(ctx, line[k]) && Good(ctx.interval, line[k]) && Violated(st, Now, Grand(line, k), obj)
    ensures Goal(obj) in line[k].eph
  {
    hide Line, Closed, Good, CanUse, Acts, CanRead;
    var s := line[k];
    match obj {
      case NoSecretRead(key) =>
        var c :| c in AllCreds(line, k) && CanUse(st, s.env, c, Now) && CanRead(st, s.env.bindings, c.user, key);
        var id := StillTabled(st, ctrls, line, k, c);
        GoodCreds(ctx.interval, s);
        UsableActs(ctx, s, id);
        ClosedReads(ctx, s, id, key);
      case NoDownstreamUse(name) =>
        var svc := s.env.services[name];
        var known :| known in View(s).att.know && known.secret == svc.source && svc.Accepts(known.version, s.env.time);
        ClosedUses(ctx, s, known, name);
    }
  }

  // ---------------------------------------------------------------- growing

  /** One saturation later nothing is lost: objects by name, tokens because all are kept. */
  lemma LineGrows(st: Static, line: seq<State>, k: nat, before: State)
    requires k + 1 < |line| && Extends(before, line[k + 1]) && before.facts == line[k].facts
    ensures Grows(st, World(before.env, Grand(line, k).att), Grand(line, k + 1))
  {
    var a, b := Grand(line, k).att, Grand(line, k + 1).att;
    forall u | u in a.pods
      ensures u in b.pods
    {
      assert ControlsPod(u) in before.facts.Keys;
    }
    forall c | c in a.ctrls
      ensures c in b.ctrls
    {
      assert ControlsController(c) in before.facts.Keys;
    }
    forall x | x in a.know
      ensures x in b.know
    {
      assert KnowsSecret(x) in before.facts.Keys;
    }
    MoreCreds(line, k);
    WithinCovers(st, a, b);
  }

  lemma MoreCreds(line: seq<State>, k: nat)
    requires k + 1 < |line|
    ensures AllCreds(line, k) <= AllCreds(line, k + 1)
  {
    forall c | c in AllCreds(line, k)
      ensures c in AllCreds(line, k + 1)
    {
      var j, id :| 0 <= j <= k && id in line[j].creds && line[j].creds[id] == c;
      InAllCreds(line, k + 1, j, id);
    }
  }

  // ---------------------------------------------------------------- saturations make lines

  /** A table after a saturation: what was there before, or a token taken in it. */
  ghost predicate Retained(st: Static, before: State, after: State)
    requires st.api != []
  {
    && (forall id :: id in before.creds ==> id in after.creds)
    && (forall id :: id in after.creds ==>
          (id in before.creds && after.creds[id] == before.creds[id]) || Minted(st, after.env, id, after.creds[id]))
  }

  lemma MintedKept(st: Static, e: Env, f: Env, id: CredId, c: Cred)
    requires st.api != [] && Minted(st, e, id, c) && EnvGrew(e, f)
    ensures Minted(st, f, id, c)
  {
  }

  lemma {:induction false} FiringsRetain(ctx: Ctx, s: State, fs: seq<Firing>)
    requires ctx.Valid() && FireAll(ctx, s, fs).Some?
    ensures Retained(ctx.st, s, FireAll(ctx, s, fs).value) && EnvGrew(s.env, FireAll(ctx, s, fs).value.env)
  {
    hide Minted, EnvGrew;
    if fs == [] {
      EnvGrewSelf(s.env);
    } else {
      FiringsRetain(ctx, s, fs[..|fs| - 1]);
      var m := FireAll(ctx, s, fs[..|fs| - 1]).value;
      var f := fs[|fs| - 1];
      var t := Fire(ctx, m, f);
      FiringGrowsEnv(ctx, m, f);
      EnvGrewTransitive(s.env, m.env, t.env);
      forall id | id in t.creds
        ensures (id in s.creds && t.creds[id] == s.creds[id]) || Minted(ctx.st, t.env, id, t.creds[id])
      {
        FiredCred(ctx, m, f, id);
        if id in m.creds && Minted(ctx.st, m.env, id, m.creds[id]) { MintedKept(ctx.st, m.env, t.env, id, m.creds[id]); }
      }
    }
  }

  lemma FiredCred(ctx: Ctx, s: State, f: Firing, id: CredId)
    requires ctx.Valid() && Ready(ctx, s, f) && id in Fire(ctx, s, f).creds
    ensures var t := Fire(ctx, s, f); (id in s.creds && t.creds[id] == s.creds[id]) || Minted(ctx.st, t.env, id, t.creds[id])
  {
    hide Reconcile, Text;
  }

  /** A line of one state: no token in it but its own. */
  lemma LineOfOne(st: Static, ctrls: map<Uid, Controller>, s: State)
    requires st.api != [] && forall id :: id in s.creds && id.Projected? ==> Minted(st, s.env, id, s.creds[id])
    ensures Line(st, ctrls, [s])
  {
    var line := [s];
    forall k, id | 0 <= k < |line| && id in line[k].creds && id.Projected?
      ensures MintedSince(st, line, 0, k, id, line[k].creds[id])
    {
      assert Minted(st, line[0].env, id, line[k].creds[id]);
    }
  }

  /** One more saturation, from the tables of the last state. */
  lemma LineOfMore(st: Static, ctrls: map<Uid, Controller>, line: seq<State>, before: State, s: State)
    requires st.api != [] && line != [] && Line(st, ctrls, line) && before.creds == line[|line| - 1].creds && Retained(st, before, s)
    requires Succeeds(ctrls, line[|line| - 1].env, s.env)
    ensures Line(st, ctrls, line + [s])
  {
    hide Minted, Succeeds;
    var n, more := |line|, line + [s];
    forall i, j | 0 <= i < j < |more|
      ensures Succeeds(ctrls, more[i].env, more[j].env)
    {
      if j == n && i < n - 1 { SucceedsThen(ctrls, more[i].env, line[n - 1].env, s.env); }
    }
    forall j, k, id, c | 0 <= j && k < n && MintedSince(st, line, j, k, id, c)
      ensures MintedSince(st, more, j, k, id, c) && MintedSince(st, more, j, n, id, c)
    {
      var i :| j <= i <= k && 0 <= i < |line| && Minted(st, line[i].env, id, c);
      assert Minted(st, more[i].env, id, c);
    }
    forall id | id in s.creds && !(id in before.creds && s.creds[id] == before.creds[id])
      ensures forall j :: 0 <= j <= n ==> MintedSince(st, more, j, n, id, s.creds[id])
    {
      assert Minted(st, more[n].env, id, s.creds[id]);
    }
    forall k, id | 0 <= k < |more| && id in more[k].creds && id.Projected?
      ensures MintedSince(st, more, 0, k, id, more[k].creds[id])
    {
      if k < n {
        assert MintedSince(st, line, 0, k, id, line[k].creds[id]);
      } else if id in before.creds && s.creds[id] == before.creds[id] {
        assert MintedSince(st, line, 0, n - 1, id, line[n - 1].creds[id]);
      }
    }
    forall j, k, id | 0 <= j < k < |more| && id in more[j].creds
      ensures id in more[k].creds && (more[k].creds[id] == more[j].creds[id] || MintedSince(st, more, j + 1, k, id, more[k].creds[id]))
    {
      if k < n {
      } else if j < n - 1 {
        assert id in line[n - 1].creds;
      }
    }
  }

  // ---------------------------------------------------------------- one saturation by itself

  lemma GrandOfOne(s: State)
    ensures Grand([s], 0) == View(s)
  {
    assert AllCreds([s], 0) == View(s).att.creds by {
      forall c | c in View(s).att.creds
        ensures c in AllCreds([s], 0)
      {
        var id :| id in s.creds && s.creds[id] == c;
        InAllCreds([s], 0, 0, id);
      }
    }
  }

  /** With all its tokens taken in it, a fixpoint is saturated by its tables alone. */
  lemma LoneSaturated(ctx: Ctx, s: State)
    requires ctx.Valid() && Closed(ctx, s) && Good(ctx.interval, s) && RuleFits(ctx, s.env)
    requires forall id :: id in s.creds && id.Projected? ==> Minted(ctx.st, s.env, id, s.creds[id])
    ensures Saturated(ctx.st, ctx.rule, View(s))
  {
    hide Closed, Good, HoldsToken, Minted, UserExhausted, CanUse, Accepted;
    ClosedOwns(ctx, s);
    LineOfOne(ctx.st, map[], s);
    GrandOfOne(s);
    var w := View(s);
    forall u, aud | Yields(ctx.st, w, u, aud)
      ensures HoldsToken(ctx.st, w, u, aud)
    {
      if aud in ctx.st.api { TokenOrEqual(ctx.st, map[], [s], ctx, 0, u, aud); } else { UselessToken(ctx.st, w, u, aud); }
    }
    GoodCreds(ctx.interval, s);
    forall c | c in w.att.creds && CanUse(ctx.st, w.env, c, ctx.rule)
      ensures UserExhausted(ctx.st, w, c.user)
    {
      var id :| id in s.creds && s.creds[id] == c;
      UseTimeIsExact(ctx, s.env, c);
      ClosedUser(ctx, s, id);
    }
  }
}
