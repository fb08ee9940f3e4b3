/** The inventory store of the collector: current objects per kind, the Pods ever observed and
    local Secret version numbers (services/collector/internal/inventory/store.go). */
module InventoryStore {
  import opened Model

  /** A retained object. `secret` is the opaque resourceVersion of Secret metadata. */
  datatype Item = Item(ns: string, text: string, pod: bool, secret: Option<string>)

  datatype Version = Version(rv: string, number: nat)

  const MAX_POD_HISTORY := 100_000

  function Of(objs: map<string, map<string, Item>>, kind: string): map<string, Item> {
    if kind in objs then objs[kind] else map[]
  }

  /** Objects that a relist of namespace `ns` does not replace. */
  function Outside(items: map<string, Item>, ns: string): map<string, Item> {
    map u | u in items && ns != "" && items[u].ns != ns :: items[u]
  }

  /** The number a Secret version gets: a new one whenever the opaque version differs. */
  function Numbered(versions: map<string, Version>, uid: string, rv: string): Version {
    if uid !in versions then Version(rv, 1)
    else if versions[uid].rv != rv then Version(rv, versions[uid].number + 1)
    else versions[uid]
  }

  predicate NumbersRise(a: map<string, Version>, b: map<string, Version>) {
    forall u :: u in a ==> u in b && a[u].number <= b[u].number && (a[u].number == b[u].number ==> b[u] == a[u])
  }

  lemma NumberedRises(a: map<string, Version>, b: map<string, Version>, u: string, rv: string)
    requires NumbersRise(a, b)
    ensures NumbersRise(a, b[u := Numbered(b, u, rv)])
  {
  }

  class Store {
    var objs: map<string, map<string, Item>>
    var history: map<string, Item>
    var versions: map<string, Version>
    var synced: set<string>

    ghost predicate Valid()
      reads this
    {
      |history| <= MAX_POD_HISTORY
    }

    constructor ()
      ensures Valid() && objs == map[] && history == map[] && versions == map[] && synced == {}
    {
      objs, history, versions, synced := map[], map[], map[], {};
    }

    method Observe(uid: string, item: Item)
      requires Valid()
      modifies this`history, this`versions
      ensures Valid() && old(history).Keys <= history.Keys <= old(history).Keys + (if item.pod then {uid} else {})
      ensures history == if item.pod && (uid in old(history) || |old(history)| < MAX_POD_HISTORY) then old(history)[uid := item] else old(history)
      ensures versions == if !item.pod && item.secret.Some? then old(versions)[uid := Numbered(old(versions), uid, item.secret.value)] else old(versions)
    {
      if item.pod {
        if uid in history {
          assert history[uid := item].Keys == history.Keys;
          assert |history[uid := item]| == |history[uid := item].Keys| == |history.Keys| == |history|;
          history := history[uid := item];
        } else if |history| < MAX_POD_HISTORY {
          history := history[uid := item];
        }
      } else if item.secret.Some? {
        var rv := item.secret.value;
        if uid !in versions { versions := versions[uid := Version(rv, 1)]; }
        else if versions[uid].rv != rv { versions := versions[uid := Version(rv, versions[uid].number + 1)]; }
        else { assert versions[uid := versions[uid]] == versions; }
      }
    }

    /** Every object of a list, in some order. */
    method ObserveAll(items: map<string, Item>)
      requires Valid()
      modifies this`history, this`versions
      ensures Valid() && NumbersRise(old(versions), versions)
    {
      hide Numbered;
      var todo := items.Keys;
      while todo != {}
        invariant Valid() && todo <= items.Keys && NumbersRise(old(versions), versions)
        decreases |todo|
      {
        var u :| u in todo;
        todo := todo - {u};
        NumberedRises(old(versions), versions, u, if items[u].secret.Some? then items[u].secret.value else "");
        Observe(u, items[u]);
      }
    }

    /** An added or modified object. */
    method Upsert(kind: string, uid: string, item: Item)
      requires Valid()
      modifies this
      ensures Valid() && synced == old(synced) && NumbersRise(old(versions), versions)
      ensures forall k :: Of(objs, k) == if k == kind then Of(old(objs), k)[uid := item] else Of(old(objs), k)
      ensures item.secret.Some? && !item.pod ==> uid in versions && versions[uid].rv == item.secret.value
      ensures history == if item.pod && (uid in old(history) || |old(history)| < MAX_POD_HISTORY) then old(history)[uid := item] else old(history)
    {
      objs := objs[kind := Of(objs, kind)[uid := item]];
      Observe(uid, item);
    }

    method Delete(kind: string, uid: string)
      requires Valid()
      modifies this`objs
      ensures Valid() && forall k :: Of(objs, k) == if k == kind then Of(old(objs), k) - {uid} else Of(old(objs), k)
    {
      if kind in objs { objs := objs[kind := objs[kind] - {uid}]; }
    }

    /** A list of one namespace, or of all when `ns` is empty, takes the place of what was there. */
    method ReplaceIn(kind: string, ns: string, items: map<string, Item>)
      requires Valid()
      modifies this
      ensures Valid() && NumbersRise(old(versions), versions)
      ensures synced == old(synced) + {if ns == "" then kind else kind + "/" + ns}
      ensures forall k :: Of(objs, k) == if k == kind then Outside(Of(old(objs), k), ns) + items else Of(old(objs), k)
    {
      if ns == "" {
        objs := objs[kind := items];
        assert Outside(Of(old(objs), kind), ns) + items == items;
      } else {
        objs := objs[kind := Outside(Of(objs, kind), ns) + items];
      }
      ObserveAll(items);
      synced := synced + {if ns == "" then kind else kind + "/" + ns};
    }
  }
}
