/** The list/watch loops of the collector, one per kind and namespace, against a server that
    delivers the changes after a resource version in order
    (services/collector/internal/inventory/watch.go). */
module Watch {
  import opened Model
  import opened InventoryStore

  // ---------------------------------------------------------------- the server

  datatype Obj = Obj(uid: string, ns: string, text: string)

  datatype Change = Put(kind: string, obj: Obj) | Removed(kind: string, obj: Obj)

  /** `home` fixes the namespace of each object, `keeps` whether it can be converted. */
  datatype Server = Server(log: seq<Change>, home: (string, string) -> string, keeps: (string, string) -> bool, shape: (string, Obj) -> Item)
  {
    ghost predicate Valid() {
      && (forall i :: 0 <= i < |log| ==> log[i].obj.ns == home(log[i].kind, log[i].obj.uid))
      && (forall k, o :: shape(k, o).ns == o.ns)
    }

    /** The objects of a kind after the first `v` changes. */
    function StateAt(kind: string, v: nat): map<string, Obj>
      requires v <= |log|
    {
      if v == 0 then map[]
      else
        var before, c := StateAt(kind, v - 1), log[v - 1];
        if c.kind != kind then before
        else if c.Put? then before[c.obj.uid := c.obj]
        else before - {c.obj.uid}
    }
  }

  datatype Scope = Scope(kind: string, ns: string)
  {
    predicate Covers(kind: string, ns: string) { kind == this.kind && (this.ns == "" || ns == this.ns) }
  }

  /** Loops of the same kind are namespaced and watch different namespaces. */
  predicate Apart(scopes: seq<Scope>) {
    forall i, j :: 0 <= i < j < |scopes| && scopes[i].kind == scopes[j].kind ==>
      scopes[i].ns != "" && scopes[j].ns != "" && scopes[i].ns != scopes[j].ns
  }

  /** What the store should hold for a scope at version `v`. */
  function Want(sv: Server, sc: Scope, v: nat): map<string, Item>
    requires v <= |sv.log|
  {
    var state := sv.StateAt(sc.kind, v);
    map u | u in state && sv.keeps(sc.kind, u) && sc.Covers(sc.kind, state[u].ns) :: sv.shape(sc.kind, state[u])
  }

  /** What it holds. */
  function Slice(objs: map<string, map<string, Item>>, sc: Scope): map<string, Item> {
    var items := Of(objs, sc.kind);
    map u | u in items && sc.Covers(sc.kind, items[u].ns) :: items[u]
  }

  // ---------------------------------------------------------------- about the server's states

  lemma {:induction false} StateShape(sv: Server, kind: string, v: nat)
    requires sv.Valid() && v <= |sv.log|
    ensures forall u :: u in sv.StateAt(kind, v) ==> sv.StateAt(kind, v)[u].uid == u && sv.StateAt(kind, v)[u].ns == sv.home(kind, u)
  {
    if v > 0 { StateShape(sv, kind, v - 1); }
  }

  lemma {:induction false} LaterChanges(sv: Server, c: Change, kind: string, v: nat)
    requires v <= |sv.log|
    ensures sv.(log := sv.log + [c]).StateAt(kind, v) == sv.StateAt(kind, v)
  {
    if v > 0 { LaterChanges(sv, c, kind, v - 1); }
  }

  lemma WantStays(sv: Server, c: Change, sc: Scope, v: nat)
    requires v <= |sv.log|
    ensures Want(sv.(log := sv.log + [c]), sc, v) == Want(sv, sc, v)
  {
    LaterChanges(sv, c, sc.kind, v);
  }

  predicate Concerns(sc: Scope, c: Change) { sc.Covers(c.kind, c.obj.ns) }

  /** A change elsewhere leaves what a scope wants as it is. */
  lemma Elsewhere(sv: Server, sc: Scope, v: nat)
    requires sv.Valid() && v < |sv.log| && !Concerns(sc, sv.log[v])
    ensures Want(sv, sc, v + 1) == Want(sv, sc, v)
  {
    StateShape(sv, sc.kind, v);
    StateShape(sv, sc.kind, v + 1);
  }

  lemma {:induction false} QuietStretch(sv: Server, sc: Scope, v: nat, w: nat)
    requires sv.Valid() && v <= w <= |sv.log| && forall i :: v <= i < w ==> !Concerns(sc, sv.log[i])
    ensures Want(sv, sc, w) == Want(sv, sc, v)
    decreases w - v
  {
    if v < w {
      QuietStretch(sv, sc, v, w - 1);
      Elsewhere(sv, sc, w - 1);
    }
  }

  /** The next change of a scope updates what it wants just as the loop updates the store. */
  lemma NextWanted(sv: Server, sc: Scope, v: nat)
    requires sv.Valid() && v < |sv.log| && Concerns(sc, sv.log[v])
    ensures var c := sv.log[v];
      Want(sv, sc, v + 1) == (if c.Removed? then Want(sv, sc, v) - {c.obj.uid}
                              else if sv.keeps(sc.kind, c.obj.uid) then Want(sv, sc, v)[c.obj.uid := sv.shape(sc.kind, c.obj)]
                              else Want(sv, sc, v))
  {
    StateShape(sv, sc.kind, v);
  }

  // ---------------------------------------------------------------- about slices

  ghost predicate Home(objs: map<string, map<string, Item>>, home: (string, string) -> string) {
    forall k, u :: u in Of(objs, k) ==> Of(objs, k)[u].ns == home(k, u)
  }

  /** `after` differs from `before` in kind `kind` only, where it holds `items`. */
  ghost predicate KindBecomes(before: map<string, map<string, Item>>, after: map<string, map<string, Item>>, kind: string, items: map<string, Item>) {
    forall k :: Of(after, k) == if k == kind then items else Of(before, k)
  }

  /** A list replaces its own slice. */
  lemma ReplacedSlice(before: map<string, map<string, Item>>, after: map<string, map<string, Item>>, sc: Scope, items: map<string, Item>)
    requires KindBecomes(before, after, sc.kind, Outside(Of(before, sc.kind), sc.ns) + items)
    requires forall u :: u in items ==> sc.Covers(sc.kind, items[u].ns)
    ensures Slice(after, sc) == items
  {
  }

  /** It leaves every other slice alone. */
  lemma ReplacedOthers(before: map<string, map<string, Item>>, after: map<string, map<string, Item>>, sc: Scope, other: Scope, items: map<string, Item>, home: (string, string) -> string)
    requires Home(before, home) && KindBecomes(before, after, sc.kind, Outside(Of(before, sc.kind), sc.ns) + items)
    requires forall u :: u in items ==> sc.Covers(sc.kind, items[u].ns) && items[u].ns == home(sc.kind, u)
    requires other.kind == sc.kind ==> sc.ns != "" && other.ns != "" && sc.ns != other.ns
    ensures Slice(after, other) == Slice(before, other)
  {
    if other.kind == sc.kind {
      var a, b := Of(after, sc.kind), Of(before, sc.kind);
      forall u
        ensures u in Slice(after, other) <==> u in Slice(before, other)
        ensures u in Slice(after, other) ==> a[u] == b[u]
      {
      }
    }
  }

  lemma ReplacedHome(before: map<string, map<string, Item>>, after: map<string, map<string, Item>>, sc: Scope, items: map<string, Item>, home: (string, string) -> string)
    requires Home(before, home) && KindBecomes(before, after, sc.kind, Outside(Of(before, sc.kind), sc.ns) + items)
    requires forall u :: u in items ==> items[u].ns == home(sc.kind, u)
    ensures Home(after, home)
  {
  }

  /** An added or modified object shows in its own slice only. */
  lemma UpsertSlice(before: map<string, map<string, Item>>, after: map<string, map<string, Item>>, kind: string, u: string, item: Item, sc: Scope, home: (string, string) -> string)
    requires Home(before, home) && KindBecomes(before, after, kind, Of(before, kind)[u := item]) && item.ns == home(kind, u)
    ensures Slice(after, sc) == if sc.Covers(kind, item.ns) then Slice(before, sc)[u := item] else Slice(before, sc)
    ensures Home(after, home)
  {
  }

  /** And so does a deletion. */
  lemma DeleteSlice(before: map<string, map<string, Item>>, after: map<string, map<string, Item>>, kind: string, u: string, ns: string, sc: Scope, home: (string, string) -> string)
    requires Home(before, home) && KindBecomes(before, after, kind, Of(before, kind) - {u}) && ns == home(kind, u)
    ensures Slice(after, sc) == if sc.Covers(kind, ns) then Slice(before, sc) - {u} else Slice(before, sc)
    ensures Home(after, home)
  {
    assert sc.kind == kind ==> Of(after, kind) == Of(before, kind) - {u};
  }

  /** Different loops cover different objects. */
  lemma CoveredOnce(scopes: seq<Scope>, i: nat, j: nat, kind: string, ns: string)
    requires Apart(scopes) && i < |scopes| && j < |scopes| && i != j && scopes[i].Covers(kind, ns)
    ensures !scopes[j].Covers(kind, ns)
  {
    if i < j { assert scopes[i].kind == scopes[j].kind ==> scopes[i].ns != scopes[j].ns; }
  }

  // ---------------------------------------------------------------- the loops

  /** Where a loop is: listing, opening a watch, reading its stream, or stopped. */
  datatype Phase = Listing | Opening | Streaming | Stopped

  /** `at` is the resource version the loop holds; `listed` whether it listed before. */
  datatype Loop = Loop(phase: Phase, at: Option<nat>, listed: bool)

  /** What a loop is told next: the answer to its request, or what its stream yields. Versions are
      positions in the server's log. */
  datatype Signal =
    | ListFailed | ListDone(v: nat)
    | Refused(expired: bool) | StreamOpened
    | Event(v: nat) | Bookmark(v: nat) | Broken(expired: bool) | Closed
    | Cancelled

  predicate Expects(phase: Phase, s: Signal) {
    match s
    case ListFailed => phase.Listing?
    case ListDone(_) => phase.Listing?
    case Refused(_) => phase.Opening?
    case StreamOpened => phase.Opening?
    case Cancelled => !phase.Stopped?
    case _ => phase.Streaming?
  }

  /** Where the loop is afterwards. */
  function NextLoop(l: Loop, s: Signal): Loop {
    match s
    case ListFailed => l
    case ListDone(v) => Loop(Opening, Some(v), true)
    case Refused(_) => l.(phase := Listing)
    case StreamOpened => l.(phase := Streaming)
    case Event(v) => l.(at := Some(v + 1))
    case Bookmark(v) => l.(at := Some(v))
    case Broken(_) => l.(phase := Listing)
    case Closed => l.(phase := Opening)
    case Cancelled => l.(phase := Stopped)
  }

  const RESTARTED := "watch-restarted"

  /** The gap it records. */
  function GapOf(l: Loop, s: Signal): Option<string> {
    match s
    case ListFailed => Some("list-failed")
    case ListDone(_) => if l.listed then Some("relist") else None
    case Refused(expired) => Some(if expired then "resource-version-expired" else "watch-failed")
    case Broken(expired) => Some(if expired then "resource-version-expired" else "watch-error")
    case Closed => Some(RESTARTED)
    case _ => None
  }

  /** What the loops did that matters for what may be missing. */
  datatype Mark = StreamMark(loop: nat) | GapMark(loop: nat, kind: string)

  function MarksOf(i: nat, l: Loop, s: Signal): seq<Mark> {
    if s.StreamOpened? then [StreamMark(i)]
    else if GapOf(l, s).Some? then [GapMark(i, GapOf(l, s).value)]
    else []
  }

  function GapsIn(trace: seq<Mark>): seq<string> {
    if trace == [] then []
    else
      var last := trace[|trace| - 1];
      GapsIn(trace[..|trace| - 1]) + if last.GapMark? then [last.kind] else []
  }

  function RestartsIn(trace: seq<Mark>, scopes: seq<Scope>, kind: string): nat {
    if trace == [] then 0
    else
      var last := trace[|trace| - 1];
      RestartsIn(trace[..|trace| - 1], scopes, kind) + RestartOf(last, scopes, kind)
  }

  function RestartOf(m: Mark, scopes: seq<Scope>, kind: string): nat {
    if m.GapMark? && m.kind == RESTARTED && m.loop < |scopes| && scopes[m.loop].kind == kind then 1 else 0
  }

  /** The loop recorded a gap after the given point. */
  predicate GapAfter(trace: seq<Mark>, i: nat, a: nat) {
    exists c :: a < c < |trace| && trace[c].GapMark? && trace[c].loop == i
  }

  /** Whenever a loop reads a second stream, it recorded a gap since the first. */
  ghost predicate GapBetween(trace: seq<Mark>) {
    forall a, b :: 0 <= a < b < |trace| && trace[a].StreamMark? && trace[b] == trace[a] ==> GapWithin(trace, trace[a].loop, a, b)
  }

  predicate GapWithin(trace: seq<Mark>, i: nat, a: nat, b: nat)
    requires b <= |trace|
  {
    exists c :: a < c < b && trace[c].GapMark? && trace[c].loop == i
  }

  /** Outside a stream, a loop has recorded a gap for each it has read. */
  ghost predicate Settled(trace: seq<Mark>, i: nat, l: Loop) {
    (l.phase.Listing? || l.phase.Opening?) ==> forall a :: 0 <= a < |trace| && trace[a] == StreamMark(i) ==> GapAfter(trace, i, a)
  }

  lemma OneMoreMark(trace: seq<Mark>, m: Mark, scopes: seq<Scope>)
    ensures GapsIn(trace + [m]) == GapsIn(trace) + if m.GapMark? then [m.kind] else []
    ensures forall kind :: RestartsIn(trace + [m], scopes, kind) == RestartsIn(trace, scopes, kind) + RestartOf(m, scopes, kind)
  {
    assert (trace + [m])[..|trace|] == trace;
  }

  /** Marks made later take nothing away. */
  lemma StillSettled(trace: seq<Mark>, more: seq<Mark>, j: nat, l: Loop)
    requires Settled(trace, j, l) && forall m :: m in more ==> m.loop != j
    ensures Settled(trace + more, j, l)
  {
    var after := trace + more;
    forall b | |trace| <= b < |after|
      ensures after[b].loop != j
    {
      assert after[b] in more;
    }
    if l.phase.Listing? || l.phase.Opening? {
      forall a | 0 <= a < |after| && after[a] == StreamMark(j)
        ensures GapAfter(after, j, a)
      {
        var c :| a < c < |trace| && trace[c].GapMark? && trace[c].loop == j;
        assert after[c] == trace[c];
      }
    }
  }

  /** A loop only opens a stream once it has recorded a gap for the one before. */
  lemma TakenSettled(trace: seq<Mark>, i: nat, l: Loop, s: Signal)
    requires Expects(l.phase, s) && Settled(trace, i, l) && GapBetween(trace)
    ensures Settled(trace + MarksOf(i, l, s), i, NextLoop(l, s)) && GapBetween(trace + MarksOf(i, l, s))
  {
    var more := MarksOf(i, l, s);
    var after := trace + more;
    forall a, b | 0 <= a < b < |after| && after[a].StreamMark? && after[b] == after[a]
      ensures GapWithin(after, after[a].loop, a, b)
    {
      if b < |trace| {
        assert GapWithin(trace, trace[a].loop, a, b);
        var c :| a < c < b && trace[c].GapMark? && trace[c].loop == trace[a].loop;
        assert after[c] == trace[c];
      } else {
        assert after[b] == StreamMark(i) && GapAfter(trace, i, a);
        var c :| a < c < |trace| && trace[c].GapMark? && trace[c].loop == i;
        assert after[c] == trace[c];
      }
    }
    var n := NextLoop(l, s);
    if n.phase.Listing? || n.phase.Opening? {
      forall a | 0 <= a < |after| && after[a] == StreamMark(i)
        ensures GapAfter(after, i, a)
      {
        if GapOf(l, s).Some? {
          assert after[|trace|] == GapMark(i, GapOf(l, s).value);
        } else {
          var c :| a < c < |trace| && trace[c].GapMark? && trace[c].loop == i;
          assert after[c] == trace[c];
        }
      }
    }
  }

  /** The loop's part of the store is the server's state at the version the loop holds. */
  ghost predicate Tracks(sv: Server, objs: map<string, map<string, Item>>, sc: Scope, at: Option<nat>) {
    at.Some? ==> at.value <= |sv.log| && Slice(objs, sc) == Want(sv, sc, at.value)
  }

  datatype Happening = Changed(change: Change) | Told(loop: nat, signal: Signal)

  class Collector {
    const store: Store
    const scopes: seq<Scope>
    var loops: seq<Loop>
    var gaps: seq<string>
    var restarts: map<string, nat>
    var server: Server
    ghost var trace: seq<Mark>

    function Restarts(kind: string): nat
      reads this
    {
      if kind in restarts then restarts[kind] else 0
    }

    /** The store is right for every loop, and nothing that may be missing went unrecorded. */
    ghost predicate Valid()
      reads this, store
    {
      && Right() && gaps == GapsIn(trace) && GapBetween(trace)
      && (forall i :: 0 <= i < |loops| ==> Settled(trace, i, loops[i]))
      && (forall kind :: Restarts(kind) == RestartsIn(trace, scopes, kind))
    }

    ghost predicate Right()
      reads this, store
    {
      && store.Valid() && server.Valid() && |loops| == |scopes| && Apart(scopes) && Home(store.objs, server.home)
      && (forall i :: 0 <= i < |loops| ==> Tracks(server, store.objs, scopes[i], loops[i].at))
      && (forall i :: 0 <= i < |loops| && (loops[i].phase.Opening? || loops[i].phase.Streaming?) ==> loops[i].at.Some?)
    }

    constructor (scopes: seq<Scope>, server: Server)
      requires Apart(scopes) && server.Valid()
      ensures Valid() && fresh(store) && store.objs == map[] && this.scopes == scopes && this.server == server
      ensures loops == seq(|scopes|, _ => Loop(Listing, None, false)) && gaps == [] && trace == [] && restarts == map[]
    {
      store := new Store();
      this.scopes := scopes;
      this.server := server;
      loops := seq(|scopes|, _ => Loop(Listing, None, false));
      gaps, trace, restarts := [], [], map[];
    }

    /** The server's state moves on by itself. */
    method ServerChanges(c: Change)
      requires Valid() && c.obj.ns == server.home(c.kind, c.obj.uid)
      modifies this`server
      ensures Valid() && server == old(server).(log := old(server).log + [c])
    {
      hide Slice, Want, Home, Server.StateAt, Settled, GapBetween;
      ghost var after := server.(log := server.log + [c]);
      forall i | 0 <= i < |loops|
        ensures Tracks(after, store.objs, scopes[i], loops[i].at)
      {
        if loops[i].at.Some? { WantStays(server, c, scopes[i], loops[i].at.value); }
      }
      LongerLog(server, c);
      server := server.(log := server.log + [c]);
    }

    /** The convertible objects of a list response. */
    method Converted(kind: string, listed: map<string, Obj>, keeps: (string, string) -> bool, shape: (string, Obj) -> Item) returns (items: map<string, Item>)
      requires forall u :: u in listed ==> listed[u].uid == u
      ensures items == map u | u in listed && keeps(kind, u) :: shape(kind, listed[u])
    {
      items := map[];
      var todo := listed.Keys;
      while todo != {}
        invariant todo <= listed.Keys && items == map u | u in listed && u !in todo && keeps(kind, u) :: shape(kind, listed[u])
        decreases |todo|
      {
        var u :| u in todo;
        todo := todo - {u};
        if keeps(kind, u) { items := items[u := shape(kind, listed[u])]; }
      }
    }

    /** The objects of a scope at a version, as a list request returns them. */
    function Listed(i: nat, v: nat): map<string, Obj>
      requires i < |scopes| && v <= |server.log|
      reads this`server
    {
      var sc, state := scopes[i], server.StateAt(scopes[i].kind, v);
      map u | u in state && sc.Covers(sc.kind, state[u].ns) :: state[u]
    }

    lemma ListedUnder(i: nat, v: nat)
      requires server.Valid() && i < |scopes| && v <= |server.log|
      ensures forall u :: u in Listed(i, v) ==> Listed(i, v)[u].uid == u
    {
      StateShape(server, scopes[i].kind, v);
    }

    /** A successful list at version `v` replaces the loop's part of the store. */
    method List(i: nat, v: nat)
      requires Right() && i < |loops| && v <= |server.log|
      modifies this`loops, store
      ensures Right() && loops == old(loops)[i := Loop(Opening, Some(v), true)]
      ensures Slice(store.objs, scopes[i]) == Want(server, scopes[i], v)
    {
      hide Server.StateAt, Slice, Home, KindBecomes, Outside;
      var sc := scopes[i];
      StateShape(server, sc.kind, v);
      var listed := Listed(i, v);
      ListedUnder(i, v);
      var items := Converted(sc.kind, listed, server.keeps, server.shape);
      ListedWanted(server, sc, v, items, listed);
      ghost var before := store.objs;
      store.ReplaceIn(sc.kind, sc.ns, items);
      assert KindBecomes(before, store.objs, sc.kind, Outside(Of(before, sc.kind), sc.ns) + items) by { BecomesOf(before, store.objs, sc.kind, Outside(Of(before, sc.kind), sc.ns) + items); }
      ReplacedSlice(before, store.objs, sc, items);
      ReplacedHome(before, store.objs, sc, items, server.home);
      forall j | 0 <= j < |loops| && j != i
        ensures Slice(store.objs, scopes[j]) == Slice(before, scopes[j])
      {
        if scopes[j].kind == sc.kind { ApartScopes(scopes, i, j); }
        ReplacedOthers(before, store.objs, sc, scopes[j], items, server.home);
      }
      loops := loops[i := Loop(Opening, Some(v), true)];
    }

    /** A bookmark: nothing of the scope happened up to `v`. */
    method Advance(i: nat, v: nat)
      requires Right() && i < |loops| && loops[i].at.Some? && loops[i].at.value <= v <= |server.log|
      requires forall j :: loops[i].at.value <= j < v ==> !Concerns(scopes[i], server.log[j])
      modifies this`loops
      ensures Right() && loops == old(loops)[i := old(loops)[i].(at := Some(v))]
    {
      hide Slice, Want, Home;
      QuietStretch(server, scopes[i], loops[i].at.value, v);
      loops := loops[i := loops[i].(at := Some(v))];
    }

    /** The next change of the scope is delivered: an addition or modification of a convertible
        object, or a deletion, reaches the store; the loop moves past it. */
    method Deliver(i: nat, v: nat)
      requires Right() && i < |loops| && loops[i].at.Some? && loops[i].at.value <= v < |server.log| && Concerns(scopes[i], server.log[v])
      requires forall j :: loops[i].at.value <= j < v ==> !Concerns(scopes[i], server.log[j])
      modifies this`loops, store
      ensures Right() && loops == old(loops)[i := old(loops)[i].(at := Some(v + 1))]
    {
      hide Server.StateAt, Slice, Home, KindBecomes, Want;
      var sc := scopes[i];
      ghost var before := store.objs;
      QuietStretch(server, sc, loops[i].at.value, v);
      NextWanted(server, sc, v);
      var c := server.log[v];
      var u := c.obj.uid;
      if c.Put? {
        if server.keeps(c.kind, u) {
          var item := server.shape(c.kind, c.obj);
          store.Upsert(c.kind, u, item);
          BecomesOf(before, store.objs, c.kind, Of(before, c.kind)[u := item]);
          forall j | 0 <= j < |loops|
            ensures Slice(store.objs, scopes[j]) == if j == i then Slice(before, sc)[u := item] else Slice(before, scopes[j])
          {
            if j != i { CoveredOnce(scopes, i, j, c.kind, c.obj.ns); }
            UpsertSlice(before, store.objs, c.kind, u, item, scopes[j], server.home);
          }
          UpsertSlice(before, store.objs, c.kind, u, item, sc, server.home);
        }
      } else {
        store.Delete(c.kind, u);
        BecomesOf(before, store.objs, c.kind, Of(before, c.kind) - {u});
        forall j | 0 <= j < |loops|
          ensures Slice(store.objs, scopes[j]) == if j == i then Slice(before, sc) - {u} else Slice(before, scopes[j])
        {
          if j != i { CoveredOnce(scopes, i, j, c.kind, c.obj.ns); }
          DeleteSlice(before, store.objs, c.kind, u, c.obj.ns, scopes[j], server.home);
        }
        DeleteSlice(before, store.objs, c.kind, u, c.obj.ns, sc, server.home);
      }
      loops := loops[i := loops[i].(at := Some(v + 1))];
    }

    // -------------------------------------------------------------- one signal

    /** What the server may tell the loop now: events in order, none left out, and bookmarks that do
        not run ahead of them. */
    predicate Possible(i: nat, s: Signal)
      requires i < |loops| == |scopes|
      reads this
    {
      var l := loops[i];
      && Expects(l.phase, s)
      && match s
         case ListDone(v) => v <= |server.log|
         case Event(v) => l.at.Some? && l.at.value <= v < |server.log| && Concerns(scopes[i], server.log[v]) && Quiet(scopes[i], l.at.value, v)
         case Bookmark(v) => l.at.Some? && l.at.value <= v <= |server.log| && Quiet(scopes[i], l.at.value, v)
         case _ => true
    }

    predicate Quiet(sc: Scope, v: nat, w: nat)
      requires w <= |server.log|
      reads this`server
    {
      forall j :: v <= j < w ==> !Concerns(sc, server.log[j])
    }

    /** The loop goes on from where it is: the control flow of listing, opening and reading. */
    method Take(i: nat, s: Signal)
      requires Valid() && i < |loops| && Possible(i, s)
      modifies this`loops, this`gaps, this`restarts, this`trace, store
      ensures Valid() && loops == old(loops)[i := NextLoop(old(loops)[i], s)] && trace == old(trace) + MarksOf(i, old(loops)[i], s)
    {
      hide Tracks, Home, Server.Valid, Settled, GapBetween, RestartsIn, GapsIn;
      var l := loops[i];
      Move(i, s);
      TakenSettled(trace, i, l, s);
      forall j | 0 <= j < |loops| && j != i
        ensures Settled(trace + MarksOf(i, l, s), j, loops[j])
      {
        StillSettled(trace, MarksOf(i, l, s), j, loops[j]);
      }
      if s.StreamOpened? { OneMoreMark(trace, StreamMark(i), scopes); }
      assert trace + [] == trace;
      var gap := GapOf(l, s);
      if gap.Some? {
        OneMoreMark(trace, GapMark(i, gap.value), scopes);
        gaps := gaps + [gap.value];
      }
      if s.Closed? { restarts := restarts[scopes[i].kind := Restarts(scopes[i].kind) + 1]; }
      trace := trace + MarksOf(i, l, s);
      assert forall kind :: Restarts(kind) == RestartsIn(trace, scopes, kind);
      assert gaps == GapsIn(trace);
    }

    method Move(i: nat, s: Signal)
      requires Right() && i < |loops| && Possible(i, s)
      modifies this`loops, store
      ensures Right() && loops == old(loops)[i := NextLoop(old(loops)[i], s)]
    {
      hide Tracks, Home, Server.Valid;
      var l := loops[i];
      match s {
        case ListDone(v) => List(i, v);
        case Event(v) => Deliver(i, v);
        case Bookmark(v) => Advance(i, v);
        case _ => loops := loops[i := NextLoop(l, s)];
      }
    }

    // -------------------------------------------------------------- all loops together

    /** Any interleaving of server changes and of what the loops are told; what the server would not
        tell is skipped. In the end every loop's part of the store is the server's state at the
        version the loop holds, and between any two streams of a loop it recorded a gap. */
    method Run(script: seq<Happening>)
      requires Valid()
      modifies this, store
      ensures Valid() && gaps == GapsIn(trace)
      ensures forall i :: 0 <= i < |scopes| && loops[i].at.Some? ==>
        loops[i].at.value <= |server.log| && Slice(store.objs, scopes[i]) == Want(server, scopes[i], loops[i].at.value)
      ensures forall a, b :: 0 <= a < b < |trace| && trace[a].StreamMark? && trace[b] == trace[a] ==>
        GapWithin(trace, trace[a].loop, a, b)
      ensures forall kind :: Restarts(kind) == RestartsIn(trace, scopes, kind)
      ensures old(trace) <= trace && old(server).log <= server.log
    {
      for k := 0 to |script|
        invariant Valid() && old(trace) <= trace && old(server).log <= server.log
      {
        match script[k] {
          case Changed(c) =>
            if c.obj.ns == server.home(c.kind, c.obj.uid) { ServerChanges(c); }
          case Told(i, s) =>
            if i < |loops| && Possible(i, s) { Take(i, s); }
        }
      }
    }
  }

  lemma LongerLog(sv: Server, c: Change)
    requires sv.Valid() && c.obj.ns == sv.home(c.kind, c.obj.uid)
    ensures sv.(log := sv.log + [c]).Valid()
  {
  }

  lemma BecomesOf(before: map<string, map<string, Item>>, after: map<string, map<string, Item>>, kind: string, items: map<string, Item>)
    requires forall k :: Of(after, k) == if k == kind then items else Of(before, k)
    ensures KindBecomes(before, after, kind, items)
  {
  }

  lemma ApartScopes(scopes: seq<Scope>, i: nat, j: nat)
    requires Apart(scopes) && i < |scopes| && j < |scopes| && i != j && scopes[i].kind == scopes[j].kind
    ensures scopes[i].ns != "" && scopes[j].ns != "" && scopes[i].ns != scopes[j].ns
  {
    if i < j { assert scopes[j].ns != scopes[i].ns; }
  }

  /** The converted objects of a list are what the scope wants. */
  lemma ListedWanted(sv: Server, sc: Scope, v: nat, items: map<string, Item>, listed: map<string, Obj>)
    requires sv.Valid() && v <= |sv.log|
    requires var state := sv.StateAt(sc.kind, v); listed == map u | u in state && sc.Covers(sc.kind, state[u].ns) :: state[u]
    requires items == map u | u in listed && sv.keeps(sc.kind, u) :: sv.shape(sc.kind, listed[u])
    ensures items == Want(sv, sc, v)
    ensures forall u :: u in items ==> sc.Covers(sc.kind, items[u].ns) && items[u].ns == sv.home(sc.kind, u)
  {
    hide Server.StateAt;
    StateShape(sv, sc.kind, v);
  }
}
