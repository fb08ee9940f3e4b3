/** An engine that gets nowhere: all it controls is one Pod, all its usable tokens are of an account
    that may do nothing, and the Pod yields no others. */
module Standstill {
  import opened Model
  import opened Semantics
  import opened Attack
  import opened Rules
  import opened Case

  // ---------------------------------------------------------------- one reader

  const PRIZE := SecretKey("n", "s")
  const READER := ObjKey(None, "reader")
  const ROLES := map[READER := [PolicyRule({"get"}, {"secrets"}, None)]]

  /** Lets the account read every Secret. */
  function ReadBinding(b: Account): Binding { Binding(None, false, "reader", [SaSubject(b)]) }

  ghost predicate OnlyFor(bindings: map<ObjKey, Binding>, b: Account) {
    forall k :: k in bindings ==> bindings[k] == ReadBinding(b)
  }

  lemma ReaderReads(st: Static, bindings: map<ObjKey, Binding>, k: ObjKey, b: Account, key: SecretKey)
    requires st.roles == ROLES && k in bindings && bindings[k] == ReadBinding(b)
    ensures CanRead(st, bindings, SaUser(b), key)
  {
    var subjects := bindings[k].subjects;
    assert subjects[0] in subjects && SubjectMatches(subjects[0], SaUser(b));
    var rules := st.roles[READER];
    assert rules[0] in rules && rules[0].Matches("get", "secrets", Some(key.name));
    assert k in AuthorizingBindings(st, bindings, SaUser(b), "get", "secrets", key.ns, Some(key.name));
  }

  lemma TokenUsable(st: Static, e: Env, u: Uid, aud: string)
    requires st.Valid() && u in e.pods && e.pods[u].Acct() in e.sas && aud in st.api
    ensures CanUse(st, e, Token(st, e, u, aud), Now)
  {
  }

  /** What the Pod's token is for: two steps within the window. */
  lemma TakeAndRead(st: Static, start: Option<int>, w: World, u: Uid, aud: string) returns (acts: seq<Act>, after: World)
    requires st.Valid() && u in w.att.pods && u in w.env.pods && w.env.pods[u].Acct() in w.env.sas
    requires aud in Audiences(st, w.env.pods[u]) && aud in st.api && PRIZE in w.env.secrets && (start.Some? ==> start.value <= w.env.time)
    requires CanRead(st, w.env.bindings, SaUser(w.env.pods[u].Acct()), PRIZE)
    ensures RunActs(st, Window(start), w, acts) == Some(after) && Known(PRIZE, w.env.secrets[PRIZE]) in after.att.know
  {
    hide Audiences, CanRead;
    var c := Token(st, w.env, u, aud);
    TokenUsable(st, w.env, u, aud);
    var taken := World(w.env, w.att.(creds := w.att.creds + {c}));
    var rule := Window(start);
    acts := [Obtain(u, aud), Read(c, PRIZE)];
    assert acts[..1] == [Obtain(u, aud)] && [Obtain(u, aud)][..0] == [];
    assert RunActs(st, rule, w, []) == Some(w);
    assert Do(st, w, Obtain(u, aud)) == taken;
    assert RunActs(st, rule, w, acts[..1]) == Some(taken);
    assert CanUse(st, w.env, c, rule);
    assert Enabled(st, rule, taken, Read(c, PRIZE));
    after := Do(st, taken, Read(c, PRIZE));
  }

  lemma Powerless(st: Static, e: Env, a: Account, b: Account, verb: string, resource: string, ns: string, name: Option<string>)
    requires OnlyFor(e.bindings, b) && a != b
    ensures !Authorized(st, e.bindings, SaUser(a), verb, resource, ns, name)
  {
    assert AuthorizingBindings(st, e.bindings, SaUser(a), verb, resource, ns, name) == {} by {
      forall k | k in e.bindings
        ensures !Grants(st, e.bindings[k], SaUser(a), verb, resource, ns, name)
      {
        assert forall s :: s in e.bindings[k].subjects ==> s == SaSubject(b);
      }
    }
  }

  lemma CannotRead(st: Static, e: Env, a: Account, b: Account, k: SecretKey)
    requires OnlyFor(e.bindings, b) && a != b
    ensures !CanRead(st, e.bindings, SaUser(a), k)
  {
    hide Authorized, OnlyFor;
    Powerless(st, e, a, b, "get", "secrets", k.ns, Some(k.name));
    Powerless(st, e, a, b, "list", "secrets", k.ns, Some(k.name));
    Powerless(st, e, a, b, "watch", "secrets", k.ns, Some(k.name));
  }

  // ---------------------------------------------------------------- nothing but useless tokens

  /** All the engine knows is the Pod `u`, and all its tokens are of account `a` or of no use. */
  ghost predicate Stuck(st: Static, u: Uid, a: Account, s: State) {
    && ControlsPod(u) in s.facts && s.eph == map[]
    && (forall f :: f in s.facts ==> f == ControlsPod(u) || f.Possesses?)
    && (forall id :: id in s.creds ==> s.creds[id].audience in st.api ==> s.creds[id].user == SaUser(a))
  }

  /** The Pod there now, if any, is of that account, or tokens under its name are stored already. */
  ghost predicate Harmless(ctx: Ctx, u: Uid, a: Account, s: State)
    requires ctx.st.api != []
  {
    u in s.env.pods ==>
      || s.env.pods[u].Acct() == a
      || forall aud :: aud in Audiences(ctx.st, s.env.pods[u]) && aud in ctx.st.api ==> TokenCurrent(ctx, s, u, aud)
  }

  lemma ActsPowerless(ctx: Ctx, u: Uid, a: Account, s: State, id: CredId)
    requires ctx.Valid() && !ctx.rule.Blind? && Stuck(ctx.st, u, a, s) && Acts(ctx, s, id)
    ensures s.creds[id].user == SaUser(a)
  {
  }

  lemma StuckFacts(st: Static, u: Uid, a: Account, s: State, f: Fact)
    requires Stuck(st, u, a, s) && f in s.facts
    ensures f == ControlsPod(u) || f.Possesses?
  {
  }

  /** No rule is ready but for taking the Pod's token. */
  lemma OnlyTokens(ctx: Ctx, u: Uid, a: Account, b: Account, s: State, f: Firing)
    requires ctx.Valid() && !ctx.rule.Blind? && Stuck(ctx.st, u, a, s) && OnlyFor(s.env.bindings, b) && a != b && Ready(ctx, s, f)
    ensures f.FireToken? && f.pod == u
  {
    hide Authorized, Acts, Stuck, OnlyFor, AdmissionDecision, Audiences;
    var st, e := ctx.st, s.env;
    match f {
      case FireExec(id, pod) =>
        ActsPowerless(ctx, u, a, s, id);
        Powerless(st, e, a, b, "create", "pods/exec", e.pods[pod].ns, Some(e.pods[pod].name));
      case FireLearn(id, k) =>
        ActsPowerless(ctx, u, a, s, id);
        CannotRead(st, e, a, b, k);
      case FireRead(id, k) =>
        ActsPowerless(ctx, u, a, s, id);
        CannotRead(st, e, a, b, k);
      case FirePod(id, acct) =>
        ActsPowerless(ctx, u, a, s, id);
        Powerless(st, e, a, b, "create", "pods", acct.ns, None);
      case FireCtrl(id, acct) =>
        ActsPowerless(ctx, u, a, s, id);
        Powerless(st, e, a, b, "create", "deployments", acct.ns, None);
      case FireToken(pod, _) => StuckFacts(st, u, a, s, ControlsPod(pod));
      case FireOwn(c, _) => StuckFacts(st, u, a, s, ControlsController(c));
      case FireDownstream(k, _) => StuckFacts(st, u, a, s, KnowsSecret(k));
      case FireUse(name, v) => StuckFacts(st, u, a, s, PossessesDownstream(name, v));
    }
  }

  lemma TokenStuck(ctx: Ctx, u: Uid, a: Account, s: State, aud: string)
    requires ctx.Valid() && Stuck(ctx.st, u, a, s) && Harmless(ctx, u, a, s) && Ready(ctx, s, FireToken(u, aud))
    ensures var t := Fire(ctx, s, FireToken(u, aud)); t.env == s.env && Stuck(ctx.st, u, a, t) && Harmless(ctx, u, a, t)
  {
    hide Audiences;
  }

  lemma {:induction false} FiringsStuck(ctx: Ctx, u: Uid, a: Account, b: Account, s: State, fs: seq<Firing>)
    requires ctx.Valid() && !ctx.rule.Blind? && Stuck(ctx.st, u, a, s) && Harmless(ctx, u, a, s) && OnlyFor(s.env.bindings, b) && a != b
    requires FireAll(ctx, s, fs).Some?
    ensures var t := FireAll(ctx, s, fs).value; t.env == s.env && Stuck(ctx.st, u, a, t) && Harmless(ctx, u, a, t)
  {
    hide Stuck, Harmless, Ready, Fire, OnlyFor;
    if fs != [] {
      FiringsStuck(ctx, u, a, b, s, fs[..|fs| - 1]);
      var m, f := FireAll(ctx, s, fs[..|fs| - 1]).value, fs[|fs| - 1];
      OnlyTokens(ctx, u, a, b, m, f);
      TokenStuck(ctx, u, a, m, f.aud);
    }
  }

  /** So a saturation leaves it where it was. */
  lemma SaturationStuck(ctx: Ctx, u: Uid, a: Account, b: Account, s: State, t: State)
    requires ctx.Valid() && !ctx.rule.Blind? && Stuck(ctx.st, u, a, s) && Harmless(ctx, u, a, s) && OnlyFor(s.env.bindings, b) && a != b
    requires Saturates(ctx, s, t)
    ensures t.env == s.env && Stuck(ctx.st, u, a, t)
  {
    hide Stuck, Harmless, OnlyFor, Closed;
    var fs :| FireAll(ctx, s, fs) == Some(t);
    FiringsStuck(ctx, u, a, b, s, fs);
  }

  /** The next interval, or the first after the history, starts with the same tables. */
  lemma SameTables(st: Static, u: Uid, a: Account, s: State, t: State)
    requires Stuck(st, u, a, s) && t.facts == s.facts && t.creds == s.creds && t.eph == map[]
    ensures Stuck(st, u, a, t)
  {
  }
}
