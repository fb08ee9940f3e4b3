/** From delivered evidence lines to attacker facts (packages/afterlock/evidence.py, `_events` and
    the attribution and fact parts of `project`). */
module Evidence {
  import opened Model
  import opened Ordering

  // ---------------------------------------------------------------- lines and events

  datatype Key = Key(source: string, sequence: nat)

  /** What an audit record says about one API response. */
  datatype Response = Response(
    username: Option<string>, actorPod: Option<string>, audience: Option<string>, saUid: Option<string>, expires: Option<int>,
    verb: string, resource: string, ns: Option<string>, targetUid: Option<string>, targetName: Option<string>,
    targetAccount: Option<string>, version: Option<int>, status: Option<int>)
  {
    predicate Succeeded() { status.Some? && 200 <= status.value < 300 }
  }

  datatype Body = Api(response: Response) | GapReport(id: string) | Heartbeat(observedAt: int) | OtherEvent

  /** `ingested` is the only part of an envelope that redelivery may change. */
  datatype Envelope = Envelope(key: Key, body: Body, ingested: string)

  datatype Line = Blank | Rejected | Accepted(env: Envelope)

  datatype Event = Event(key: Key, body: Body)

  datatype Diagnostics = Diagnostics(accepted: nat, duplicates: nat, rejected: seq<nat>, conflicts: seq<Key>)

  predicate KeyLeq(a: Key, b: Key) {
    if a.source != b.source then TextLeq(a.source, b.source) else a.sequence <= b.sequence
  }

  predicate KeyLess(a: Key, b: Key) { KeyLeq(a, b) && a != b }

  lemma KeyOrder(a: Key, b: Key, c: Key)
    ensures KeyLeq(a, a)
    ensures KeyLeq(a, b) || KeyLeq(b, a)
    ensures KeyLeq(a, b) && KeyLeq(b, a) ==> a == b
    ensures KeyLeq(a, b) && KeyLeq(b, c) ==> KeyLeq(a, c)
  {
    hide TextLeq;
    TextOrder(a.source, b.source, c.source);
  }

  /** The records delivered, whatever their order, number of copies and ingestion times. */
  function Delivered(lines: seq<Line>): set<Event> {
    set l | l in lines && l.Accepted? :: Event(l.env.key, l.env.body)
  }

  /** No two deliveries under one key differ. */
  predicate Consistent(events: set<Event>) {
    forall a, b :: a in events && b in events && a.key == b.key ==> a == b
  }

  predicate Sorted(events: seq<Event>) {
    forall i, j :: 0 <= i < j < |events| ==> KeyLess(events[i].key, events[j].key)
  }

  function Set<T>(s: seq<T>): set<T> { set x | x in s }

  /** A strictly sorted sequence is determined by its elements. */
  lemma {:induction false} SortedUnique(a: seq<Event>, b: seq<Event>)
    requires Sorted(a) && Sorted(b) && Set(a) == Set(b)
    ensures a == b
  {
    hide KeyLeq;
    EmptySet(a);
    EmptySet(b);
    if a != [] {
      var x, y := a[|a| - 1], b[|b| - 1];
      LastIsGreatest(a, b);
      LastIsGreatest(b, a);
      KeyOrder(x.key, y.key, x.key);
      SameLast(a, b);
      InitSet(a);
      InitSet(b);
      SortedUnique(a[..|a| - 1], b[..|b| - 1]);
    }
  }

  lemma EmptySet(a: seq<Event>)
    ensures Set(a) == {} <==> a == []
  {
    if a != [] { assert a[0] in Set(a); }
  }

  lemma LastIsGreatest(a: seq<Event>, b: seq<Event>)
    requires a != [] && b != [] && Sorted(a) && Set(b) <= Set(a)
    ensures KeyLeq(b[|b| - 1].key, a[|a| - 1].key)
  {
    hide KeyLeq;
    var y := b[|b| - 1];
    assert y in Set(b);
    var i :| 0 <= i < |a| && a[i] == y;
    KeyOrder(y.key, y.key, y.key);
  }

  lemma SameLast(a: seq<Event>, b: seq<Event>)
    requires a != [] && b != [] && Sorted(a) && Set(b) <= Set(a) && a[|a| - 1].key == b[|b| - 1].key
    ensures a[|a| - 1] == b[|b| - 1]
  {
    hide KeyLeq;
    var y := b[|b| - 1];
    assert y in Set(b);
    var i :| 0 <= i < |a| && a[i] == y;
  }

  lemma InitSet(a: seq<Event>)
    requires a != [] && Sorted(a)
    ensures Set(a[..|a| - 1]) == Set(a) - {a[|a| - 1]}
  {
    hide KeyLeq;
    assert a == a[..|a| - 1] + [a[|a| - 1]];
  }

  /** Sorting the table of events by key. */
  method SortByKey(table: map<Key, Body>) returns (events: seq<Event>)
    ensures Sorted(events) && Set(events) == set k | k in table :: Event(k, table[k])
  {
    hide KeyLeq;
    events := [];
    var todo := table.Keys;
    while todo != {}
      invariant todo <= table.Keys && Sorted(events)
      invariant Set(events) == set k | k in table && k !in todo :: Event(k, table[k])
      invariant forall e, k :: e in events && k in todo ==> KeyLess(e.key, k)
      decreases |todo|
    {
      var least := LeastKey(todo);
      var e := Event(least, table[least]);
      assert Set(events + [e]) == Set(events) + {e};
      events := events + [e];
      todo := todo - {least};
    }
    assert forall k :: k in table ==> k !in todo;
  }

  method LeastKey(keys: set<Key>) returns (least: Key)
    requires keys != {}
    ensures least in keys && forall k :: k in keys && k != least ==> KeyLess(least, k)
  {
    hide KeyLeq;
    least :| least in keys;
    var todo := keys - {least};
    KeyOrder(least, least, least);
    while todo != {}
      invariant todo <= keys && least in keys && forall k :: k in keys - todo ==> KeyLeq(least, k)
      decreases |todo|
    {
      var k :| k in todo;
      todo := todo - {k};
      forall x | x in keys - todo
        ensures KeyLeq(least, k) ==> KeyLeq(least, x)
        ensures !KeyLeq(least, k) ==> KeyLeq(k, x)
      {
        KeyOrder(k, least, x);
        KeyOrder(k, k, k);
      }
      if !KeyLeq(least, k) { least := k; }
    }
  }

  /** Deduplicates by key, the first delivery winning, and orders by key. */
  method CollectEvents(lines: seq<Line>) returns (events: seq<Event>, diag: Diagnostics)
    ensures Sorted(events) && Set(events) <= Delivered(lines)
    ensures forall d :: d in Delivered(lines) ==> exists e :: e in events && e.key == d.key
    ensures diag.accepted == |events|
    ensures diag.conflicts == [] <==> Consistent(Delivered(lines))
    ensures diag.conflicts == [] ==> Set(events) == Delivered(lines)
    ensures diag.rejected == [] <==> Rejected !in lines
  {
    hide KeyLeq, Delivered, Sorted, Consistent, Set;
    var table: map<Key, Body> := map[];
    diag := Diagnostics(0, 0, [], []);
    NothingDelivered(lines);
    for i := 0 to |lines|
      invariant Tabled(Delivered(lines[..i]), table) && diag.accepted == |table|
      invariant diag.conflicts == [] <==> Agrees(Delivered(lines[..i]), table)
      invariant diag.rejected == [] <==> Rejected !in lines[..i]
    {
      OneMoreDelivered(lines, i);
      ghost var before := table;
      match lines[i] {
        case Blank =>
        case Rejected => diag := diag.(rejected := diag.rejected + [i]);
        case Accepted(env) =>
          TableOne(Delivered(lines[..i]), table, Event(env.key, env.body));
          if env.key in table {
            if table[env.key] == env.body { diag := diag.(duplicates := diag.duplicates + 1); }
            else { diag := diag.(conflicts := diag.conflicts + [env.key]); }
          } else {
            table := table[env.key := env.body];
            diag := diag.(accepted := diag.accepted + 1);
          }
      }
    }
    assert lines[..|lines|] == lines;
    events := SortByKey(table);
    ConflictFree(Delivered(lines), table);
    SortedSize(events, table);
    SortedTable(events, table, Delivered(lines));
  }

  /** The table holds some delivered record for every key delivered. */
  ghost predicate Tabled(delivered: set<Event>, table: map<Key, Body>) {
    && (forall k :: k in table ==> Event(k, table[k]) in delivered)
    && (forall d :: d in delivered ==> d.key in table)
  }

  ghost predicate Agrees(delivered: set<Event>, table: map<Key, Body>)
    requires Tabled(delivered, table)
  {
    forall d :: d in delivered ==> table[d.key] == d.body
  }

  lemma TableOne(delivered: set<Event>, table: map<Key, Body>, e: Event)
    requires Tabled(delivered, table)
    ensures e.key in table ==> Tabled(delivered + {e}, table) && (Agrees(delivered + {e}, table) <==> Agrees(delivered, table) && table[e.key] == e.body)
    ensures e.key !in table ==> Tabled(delivered + {e}, table[e.key := e.body])
    ensures e.key !in table ==> (Agrees(delivered + {e}, table[e.key := e.body]) <==> Agrees(delivered, table))
  {
    if e.key !in table {
      var after := table[e.key := e.body];
      assert forall d :: d in delivered ==> after[d.key] == table[d.key];
    }
  }

  lemma NothingDelivered(lines: seq<Line>)
    ensures Delivered(lines[..0]) == {}
  {
  }

  lemma SortedTable(events: seq<Event>, table: map<Key, Body>, delivered: set<Event>)
    requires Set(events) == (set k | k in table :: Event(k, table[k])) && Tabled(delivered, table)
    ensures Set(events) <= delivered && (Agrees(delivered, table) ==> Set(events) == delivered)
    ensures forall d :: d in delivered ==> exists e :: e in events && e.key == d.key
  {
    forall d | d in delivered
      ensures exists e :: e in events && e.key == d.key
    {
      assert Event(d.key, table[d.key]) in Set(events);
    }
  }

  lemma OneMoreDelivered(lines: seq<Line>, i: nat)
    requires i < |lines|
    ensures lines[..i + 1] == lines[..i] + [lines[i]]
    ensures Delivered(lines[..i + 1]) == Delivered(lines[..i]) + if lines[i].Accepted? then {Event(lines[i].env.key, lines[i].env.body)} else {}
  {
    assert lines[..i + 1] == lines[..i] + [lines[i]];
    forall d | d in Delivered(lines[..i])
      ensures d in Delivered(lines[..i + 1])
    {
      var l :| l in lines[..i] && l.Accepted? && Event(l.env.key, l.env.body) == d;
      assert l in lines[..i + 1];
    }
    if lines[i].Accepted? { assert lines[i] in lines[..i + 1]; }
  }

  lemma ConflictFree(delivered: set<Event>, table: map<Key, Body>)
    requires Tabled(delivered, table)
    ensures Agrees(delivered, table) <==> Consistent(delivered)
  {
    if Consistent(delivered) {
      forall d | d in delivered
        ensures table[d.key] == d.body
      {
        assert Event(d.key, table[d.key]) in delivered;
      }
    }
  }

  lemma {:induction false} SortedSize(events: seq<Event>, table: map<Key, Body>)
    requires Sorted(events) && Set(events) == set k | k in table :: Event(k, table[k])
    ensures |events| == |table|
    decreases |events|
  {
    hide KeyLeq;
    assert forall k :: k in table ==> Event(k, table[k]) in Set(events);
    if events == [] {
      assert table.Keys == {};
    } else {
      var last := events[|events| - 1];
      assert last in Set(events);
      InitSet(events);
      var rest := table - {last.key};
      assert table.Keys == rest.Keys + {last.key};
      assert |table.Keys| == |table| && |rest.Keys| == |rest|;
      SortedSize(events[..|events| - 1], rest);
    }
  }

  // ---------------------------------------------------------------- attribution

  /** Inventory Pods with their controllers, and Secret versions. */
  datatype Inventory = Inventory(pods: map<string, Option<string>>, secrets: map<SecretKey, int>)

  predicate IsAttacker(r: Response, users: set<string>, pods: set<string>) {
    || (r.username.Some? && r.username.value in users)
    || (r.actorPod.Some? && r.actorPod.value in pods)
  }

  predicate CreatesPod(r: Response) { (r.resource == "pods" || r.resource == "pods/exec") && r.verb == "create" && r.targetUid.Some? }

  predicate CreatesController(r: Response) {
    !CreatesPod(r) && r.resource == "deployments" && r.verb == "create" && r.targetUid.Some?
  }

  /** The Pods one response brings under control, if the attacker made it. */
  function Gains(inv: Inventory, r: Response): set<string> {
    if CreatesPod(r) then {r.targetUid.value}
    else if CreatesController(r) then set u | u in inv.pods && inv.pods[u] == r.targetUid
    else {}
  }

  predicate Attributes(inv: Inventory, users: set<string>, pods: set<string>, e: Event) {
    e.body.Api? && e.body.response.Succeeded() && IsAttacker(e.body.response, users, pods) ==> Gains(inv, e.body.response) <= pods
  }

  /** Everything attributable to the attacker is already attributed. */
  predicate Complete(inv: Inventory, users: set<string>, events: seq<Event>, pods: set<string>) {
    forall e :: e in events ==> Attributes(inv, users, pods, e)
  }

  function Universe(inv: Inventory, events: seq<Event>): set<string> {
    inv.pods.Keys + set e | e in events && e.body.Api? && e.body.response.targetUid.Some? :: e.body.response.targetUid.value
  }

  lemma GainsWithin(inv: Inventory, events: seq<Event>, e: Event)
    requires e in events && e.body.Api?
    ensures Gains(inv, e.body.response) <= Universe(inv, events)
  {
  }

  /** One pass over the events, as the loop body makes it. */
  method AttributePass(inv: Inventory, users: set<string>, events: seq<Event>, pods0: set<string>) returns (pods: set<string>, changed: bool)
    requires pods0 <= Universe(inv, events)
    ensures pods0 <= pods <= Universe(inv, events) && (changed <==> pods != pods0)
    ensures !changed ==> Complete(inv, users, events, pods)
    ensures forall least :: Complete(inv, users, events, least) && pods0 <= least ==> pods <= least
  {
    hide Gains, Universe, IsAttacker;
    pods, changed := pods0, false;
    for i := 0 to |events|
      invariant pods0 <= pods <= Universe(inv, events) && (changed <==> pods != pods0)
      invariant !changed ==> forall e :: e in events[..i] ==> Attributes(inv, users, pods, e)
      invariant forall least :: Complete(inv, users, events, least) && pods0 <= least ==> pods <= least
    {
      assert events[..i + 1] == events[..i] + [events[i]];
      var e := events[i];
      if e.body.Api? && IsAttacker(e.body.response, users, pods) && e.body.response.Succeeded() {
        var gains := Gains(inv, e.body.response);
        GainsWithin(inv, events, e);
        forall least | Complete(inv, users, events, least) && pods <= least
          ensures gains <= least
        {
          StillAttacker(e.body.response, users, pods, least);
          assert Attributes(inv, users, least, e);
        }
        if !(gains <= pods) { changed := true; }
        pods := pods + gains;
      }
    }
    assert events[..|events|] == events;
  }

  lemma StillAttacker(r: Response, users: set<string>, a: set<string>, b: set<string>)
    requires IsAttacker(r, users, a) && a <= b
    ensures IsAttacker(r, users, b)
  {
  }

  /** Repeats until nothing changes: the result is the least complete set of attacker Pods. */
  method Attribute(inv: Inventory, users: set<string>, events: seq<Event>) returns (pods: set<string>)
    ensures Complete(inv, users, events, pods)
    ensures forall least :: Complete(inv, users, events, least) ==> pods <= least
  {
    hide Complete, Universe;
    pods := {};
    var changed := true;
    while changed
      invariant pods <= Universe(inv, events)
      invariant !changed ==> Complete(inv, users, events, pods)
      invariant forall least :: Complete(inv, users, events, least) ==> pods <= least
      decreases Universe(inv, events) - pods, changed
    {
      ghost var before := pods;
      pods, changed := AttributePass(inv, users, events, pods);
      if changed { assert Universe(inv, events) - pods < Universe(inv, events) - before; }
    }
  }

  /** The attribution is a function of the set of events: least sets are unique. */
  lemma LeastIsUnique(inv: Inventory, users: set<string>, a: seq<Event>, b: seq<Event>, p: set<string>, q: set<string>)
    requires Set(a) == Set(b)
    requires Complete(inv, users, a, p) && forall least :: Complete(inv, users, a, least) ==> p <= least
    requires Complete(inv, users, b, q) && forall least :: Complete(inv, users, b, least) ==> q <= least
    ensures p == q
  {
    hide Attributes;
    forall e
      ensures e in a <==> e in b
    {
      assert e in Set(a) <==> e in Set(b);
    }
    assert Complete(inv, users, b, p) && Complete(inv, users, a, q);
  }

  // ---------------------------------------------------------------- facts

  datatype Fact =
    | PossessesCredential(id: string, pod: string, audience: string)
    | ControlsPod(uid: string)
    | HistoricalPod(uid: string, ns: string, account: string)
    | ControlsController(uid: string)
    | KnowsSecret(secret: SecretKey, version: int)

  datatype Gap = Reported(id: string) | PodAccountUnknown(uid: string) | SecretVersionUnknown(secret: SecretKey)

  /** What is fixed while facts are projected. */
  datatype Setting = Setting(inv: Inventory, users: set<string>, pods: set<string>, resolved: set<string>, defaultAudience: string)

  predicate Counts(st: Setting, e: Event) {
    e.body.Api? && e.body.response.Succeeded() && IsAttacker(e.body.response, st.users, st.pods)
  }

  function UsedCredential(st: Setting, r: Response): set<Fact> {
    if r.actorPod.Some? && r.actorPod.value in st.pods && r.username.Some? then
      var aud := if r.audience.Some? && r.audience.value != "" then r.audience.value else st.defaultAudience;
      {PossessesCredential("observed:" + r.actorPod.value + ":" + aud, r.actorPod.value, aud)}
    else {}
  }

  predicate ReadsOne(r: Response) { r.verb == "get" && r.resource == "secrets" && r.ns.Some? && r.targetName.Some? }

  predicate ReadsMany(r: Response) { (r.verb == "list" || r.verb == "watch") && r.resource == "secrets" }

  function ActionFacts(st: Setting, r: Response): set<Fact> {
    if CreatesPod(r) then
      {ControlsPod(r.targetUid.value)} +
      (if r.targetUid.value !in st.inv.pods && r.targetAccount.Some? && r.ns.Some?
       then {HistoricalPod(r.targetUid.value, r.ns.value, r.targetAccount.value)} else {})
    else if CreatesController(r) then {ControlsController(r.targetUid.value)}
    else if ReadsOne(r) then
      var key := SecretKey(r.ns.value, r.targetName.value);
      if r.version.Some? then {KnowsSecret(key, r.version.value)}
      else if key in st.inv.secrets then {KnowsSecret(key, st.inv.secrets[key])}
      else {}
    else if ReadsMany(r) then
      set k | k in st.inv.secrets && (r.ns.None? || k.ns == r.ns.value) && (r.targetName.None? || k.name == r.targetName.value) :: KnowsSecret(k, st.inv.secrets[k])
    else {}
  }

  function EventFacts(st: Setting, e: Event): set<Fact> {
    if Counts(st, e) then UsedCredential(st, e.body.response) + ActionFacts(st, e.body.response) else {}
  }

  function EventGaps(st: Setting, e: Event): set<Gap> {
    if e.body.GapReport? then (if e.body.id in st.resolved then {} else {Reported(e.body.id)})
    else if !Counts(st, e) then {}
    else
      var r := e.body.response;
      if CreatesPod(r) then
        (if r.targetUid.value !in st.inv.pods && !(r.targetAccount.Some? && r.ns.Some?) then {PodAccountUnknown(r.targetUid.value)} else {})
      else if !CreatesController(r) && ReadsOne(r) then
        var key := SecretKey(r.ns.value, r.targetName.value);
        if r.version.None? && key !in st.inv.secrets then {SecretVersionUnknown(key)} else {}
      else {}
  }

  datatype Projection = Projection(facts: map<Fact, set<Key>>, credentials: map<string, Response>, gaps: set<Gap>, pods: set<string>)

  function Refs(facts: map<Fact, set<Key>>, f: Fact): set<Key> { if f in facts then facts[f] else {} }

  ghost predicate Shows(st: Setting, events: seq<Event>, f: Fact, k: Key) {
    exists e :: e in events && e.key == k && f in EventFacts(st, e)
  }

  /** Facts with exactly the records they rest on; a fact reported twice gains a reference. */
  ghost predicate Supports(st: Setting, events: seq<Event>, facts: map<Fact, set<Key>>) {
    && (forall f :: f in facts ==> facts[f] != {})
    && (forall f, k :: k in Refs(facts, f) <==> Shows(st, events, f, k))
  }

  /** Every fact of one record added: a new fact, or one more reference for a known one. */
  function AddFacts(facts: map<Fact, set<Key>>, more: set<Fact>, ref: Key): map<Fact, set<Key>> {
    map f | f in facts.Keys + more :: if f in more then Refs(facts, f) + {ref} else facts[f]
  }

  lemma AddedFacts(facts: map<Fact, set<Key>>, more: set<Fact>, ref: Key)
    requires forall f :: f in facts ==> facts[f] != {}
    ensures forall f :: f in AddFacts(facts, more, ref) ==> AddFacts(facts, more, ref)[f] != {}
    ensures forall f :: Refs(AddFacts(facts, more, ref), f) == Refs(facts, f) + if f in more then {ref} else {}
  {
  }

  /** The credential an event shows in use, if it is the first event to show it. */
  function Credentials(st: Setting, events: seq<Event>): map<string, Response> {
    if events == [] then map[]
    else
      var before, e := Credentials(st, events[..|events| - 1]), events[|events| - 1];
      var used := set f | f in EventFacts(st, e) && f.PossessesCredential? && f.id !in before :: f.id;
      if e.body.Api? then before + map id | id in used :: e.body.response else before
  }

  method ProjectFacts(st: Setting, events: seq<Event>) returns (p: Projection)
    ensures Supports(st, events, p.facts) && p.credentials == Credentials(st, events) && p.pods == st.pods
    ensures p.gaps == AllGaps(st, events)
  {
    hide EventFacts, EventGaps, Supports, AddFacts, AllGaps;
    NothingSupported(st, events);
    var facts: map<Fact, set<Key>> := map[];
    var creds: map<string, Response> := map[];
    var gaps: set<Gap> := {};
    for i := 0 to |events|
      invariant Supports(st, events[..i], facts) && creds == Credentials(st, events[..i])
      invariant gaps == AllGaps(st, events[..i])
    {
      var e := events[i];
      assert events[..i + 1] == events[..i] + [e];
      assert events[..i + 1][..i] == events[..i];
      SupportsMore(st, events[..i], e, facts);
      MoreGaps(st, events[..i], e);
      facts := AddFacts(facts, EventFacts(st, e), e.key);
      var used := set f | f in EventFacts(st, e) && f.PossessesCredential? && f.id !in creds :: f.id;
      if e.body.Api? { creds := creds + map id | id in used :: e.body.response; }
      gaps := gaps + EventGaps(st, e);
    }
    assert events[..|events|] == events;
    p := Projection(facts, creds, gaps, st.pods);
  }

  function AllGaps(st: Setting, events: seq<Event>): set<Gap> { set e, g | e in events && g in EventGaps(st, e) :: g }

  lemma MoreGaps(st: Setting, events: seq<Event>, e: Event)
    ensures AllGaps(st, events + [e]) == AllGaps(st, events) + EventGaps(st, e)
  {
    hide EventGaps;
    assert e in events + [e];
  }

  lemma NothingSupported(st: Setting, events: seq<Event>)
    ensures events[..0] == [] && Supports(st, events[..0], map[]) && AllGaps(st, events[..0]) == {}
  {
  }

  lemma SupportsMore(st: Setting, events: seq<Event>, e: Event, before: map<Fact, set<Key>>)
    requires Supports(st, events, before)
    ensures Supports(st, events + [e], AddFacts(before, EventFacts(st, e), e.key))
  {
    hide EventFacts, Refs, AddFacts;
    var after := AddFacts(before, EventFacts(st, e), e.key);
    AddedFacts(before, EventFacts(st, e), e.key);
    forall f, k
      ensures k in Refs(after, f) <==> Shows(st, events + [e], f, k)
    {
      if Shows(st, events, f, k) {
        var x :| x in events && x.key == k && f in EventFacts(st, x);
        assert x in events + [e];
      }
      if f in EventFacts(st, e) && k == e.key { assert e in events + [e]; }
      if Shows(st, events + [e], f, k) {
        var x :| x in events + [e] && x.key == k && f in EventFacts(st, x);
        assert x in events || x == e;
      }
    }
  }

  /** The projection of a bundle, up to the parts that do not depend on the events. */
  method Project(lines: seq<Line>, inv: Inventory, users: set<string>, resolved: set<string>, defaultAudience: string)
    returns (p: Projection, events: seq<Event>, diag: Diagnostics)
    ensures Sorted(events) && (diag.conflicts == [] <==> Consistent(Delivered(lines))) && (diag.rejected == [] <==> Rejected !in lines)
    ensures diag.conflicts == [] ==> Set(events) == Delivered(lines)
    ensures ProjectionOf(inv, users, resolved, defaultAudience, events, p)
  {
    hide Sorted, Delivered, Consistent, Supports, Complete;
    events, diag := CollectEvents(lines);
    var pods := Attribute(inv, users, events);
    p := ProjectFacts(Setting(inv, users, pods, resolved, defaultAudience), events);
  }

  ghost predicate ProjectionOf(inv: Inventory, users: set<string>, resolved: set<string>, aud: string, events: seq<Event>, p: Projection) {
    var st := Setting(inv, users, p.pods, resolved, aud);
    && Complete(inv, users, events, p.pods) && (forall least :: Complete(inv, users, events, least) ==> p.pods <= least)
    && Supports(st, events, p.facts) && p.credentials == Credentials(st, events)
    && p.gaps == AllGaps(st, events)
  }

  lemma SupportUnique(st: Setting, events: seq<Event>, a: map<Fact, set<Key>>, b: map<Fact, set<Key>>)
    requires Supports(st, events, a) && Supports(st, events, b)
    ensures a == b
  {
    hide EventFacts, Shows;
    forall f
      ensures Refs(a, f) == Refs(b, f)
    {
      assert forall k :: k in Refs(a, f) <==> k in Refs(b, f);
    }
    assert forall f :: f in a <==> Refs(a, f) != {};
    assert forall f :: f in b <==> Refs(b, f) != {};
    assert a.Keys == b.Keys;
    forall f | f in a
      ensures a[f] == b[f]
    {
      assert Refs(a, f) == Refs(b, f);
    }
  }

  /** Delivery does not matter: consistent deliveries of the same records, in any order and with
      any repetition, project to the same events, Pods, facts, credentials and gaps. */
  lemma DeliveryOrderIrrelevant(a: seq<Line>, b: seq<Line>, inv: Inventory, users: set<string>, resolved: set<string>, aud: string,
      ea: seq<Event>, eb: seq<Event>, pa: Projection, pb: Projection)
    requires Delivered(a) == Delivered(b) && Set(ea) == Delivered(a) && Set(eb) == Delivered(b) && Sorted(ea) && Sorted(eb)
    requires ProjectionOf(inv, users, resolved, aud, ea, pa) && ProjectionOf(inv, users, resolved, aud, eb, pb)
    ensures ea == eb && pa == pb
  {
    hide Sorted, Delivered, Complete, Supports, Credentials, EventGaps;
    SortedUnique(ea, eb);
    LeastIsUnique(inv, users, ea, eb, pa.pods, pb.pods);
    SupportUnique(Setting(inv, users, pa.pods, resolved, aud), ea, pa.facts, pb.facts);
  }

  /** A permuted or repeated delivery delivers the same records. */
  lemma RedeliveryDelivers(a: seq<Line>, b: seq<Line>)
    requires forall l :: l in a <==> l in b
    ensures Delivered(a) == Delivered(b)
  {
  }

  /** A Pod known only from history is always also recorded as controlled, is not in the
      inventory, and is attributed to the attacker: what witness replay relies on. */
  lemma HistoricalAlsoControlled(inv: Inventory, users: set<string>, resolved: set<string>, aud: string, events: seq<Event>, p: Projection, f: Fact)
    requires ProjectionOf(inv, users, resolved, aud, events, p) && f in p.facts && f.HistoricalPod?
    ensures ControlsPod(f.uid) in p.facts && p.facts[f] <= p.facts[ControlsPod(f.uid)] && f.uid !in inv.pods && f.uid in p.pods
  {
    hide Credentials, EventGaps, Complete, Refs, Counts, IsAttacker, UsedCredential;
    var st := Setting(inv, users, p.pods, resolved, aud);
    RefsIn(p.facts, f);
    forall k | k in p.facts[f]
      ensures k in Refs(p.facts, ControlsPod(f.uid)) && f.uid !in inv.pods && f.uid in p.pods
    {
      assert k in Refs(p.facts, f) && Shows(st, events, f, k);
      var e :| e in events && e.key == k && f in EventFacts(st, e);
      HistoricalEvent(st, e, f);
      assert Shows(st, events, ControlsPod(f.uid), k);
      AttributedEvent(inv, users, events, p.pods, e, st, f);
    }
    var k :| k in p.facts[f];
    RefsIn(p.facts, ControlsPod(f.uid));
  }

  lemma RefsIn(facts: map<Fact, set<Key>>, f: Fact)
    ensures f in facts ==> Refs(facts, f) == facts[f]
    ensures Refs(facts, f) != {} ==> f in facts
  {
  }

  lemma HistoricalEvent(st: Setting, e: Event, f: Fact)
    requires f in EventFacts(st, e) && f.HistoricalPod?
    ensures Counts(st, e) && CreatesPod(e.body.response) && e.body.response.targetUid.value == f.uid && f.uid !in st.inv.pods
    ensures ControlsPod(f.uid) in EventFacts(st, e)
  {
    hide IsAttacker, UsedCredential;
    NoCredentialFact(st, e.body.response, f);
  }

  lemma AttributedEvent(inv: Inventory, users: set<string>, events: seq<Event>, pods: set<string>, e: Event, st: Setting, f: Fact)
    requires Complete(inv, users, events, pods) && e in events && st.inv == inv && st.users == users && st.pods == pods
    requires Counts(st, e) && f.HistoricalPod? && CreatesPod(e.body.response) && e.body.response.targetUid.value == f.uid
    ensures f.uid in pods
  {
    hide IsAttacker;
    assert Attributes(inv, users, pods, e);
  }

  lemma NoCredentialFact(st: Setting, r: Response, f: Fact)
    requires !f.PossessesCredential?
    ensures f !in UsedCredential(st, r)
  {
  }
}
