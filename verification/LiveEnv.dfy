/** The engine's mutable environment (packages/afterlock/semantics.py, class Env): each method
    updates the dictionaries in place and is proved against the value-level semantics. */
module LiveEnvironment {
  import opened Model
  import opened Semantics
  import opened Shape

  class LiveEnv {
    var time: int
    var serviceAccounts: map<Account, string>
    var pods: map<Uid, Pod>
    var controllers: map<Uid, Controller>
    var bindings: map<ObjKey, Binding>
    var secrets: map<SecretKey, int>
    var services: map<string, Service>
    var podCounter: map<Uid, int>

    function Snapshot(): Env
      reads this
    {
      Env(time, serviceAccounts, pods, controllers, bindings, secrets, services, podCounter)
    }

    constructor FromInventory(inventory: Env)
      ensures Snapshot() == inventory
    {
      time, serviceAccounts, pods, controllers := inventory.time, inventory.sas, inventory.pods, inventory.ctrls;
      bindings, secrets, services, podCounter := inventory.bindings, inventory.secrets, inventory.services, inventory.counters;
    }

    constructor Clone(other: LiveEnv)
      ensures Snapshot() == other.Snapshot()
    {
      time, serviceAccounts, pods, controllers := other.time, other.serviceAccounts, other.pods, other.controllers;
      bindings, secrets, services, podCounter := other.bindings, other.secrets, other.services, other.podCounter;
    }

    /** Searches upwards for a replica number no existing Pod uses. */
    method NextReplicaNumber(c: Uid, first: int) returns (k: int)
      ensures k == FirstFree(pods.Keys, c, first)
    {
      k := first;
      while Replica(c, k) in pods
        invariant k >= first && FirstFree(pods.Keys, c, first) == FirstFree(pods.Keys, c, k)
        decreases |TakenFrom(pods.Keys, c, k)|
      {
        assert TakenFrom(pods.Keys, c, k + 1) == TakenFrom(pods.Keys, c, k) - {Replica(c, k)};
        k := k + 1;
      }
    }

    /** Recreates the missing Pod of one controller. */
    method Recreate(ghost e: Env, c: Uid)
      requires c in controllers && e.ctrls == controllers && NextNumber(Snapshot(), c) == NextNumber(e, c)
      modifies this`pods, this`podCounter
      ensures Snapshot() == Served(e, old(Snapshot()), c)
    {
      hide FirstFree, ReplicaOf;
      var k := NextReplicaNumber(c, (if c in podCounter then podCounter[c] else 0) + 1);
      podCounter := podCounter[c := k];
      pods := pods[Replica(c, k) := ReplicaOf(controllers[c], c, k)];
    }

    /** Handles one controller: recreates its Pod unless it still owns one. */
    method Serve(ghost e: Env, ghost done: set<Uid>, c: Uid)
      requires c in controllers && c !in done && e.ctrls == controllers && Snapshot() == PartlyReconciled(e, done)
      modifies this`pods, this`podCounter
      ensures Snapshot() == PartlyReconciled(e, done + {c})
    {
      hide PartlyReconciled, NextNumber, ReplicaOf;
      OneMore(e, done, c);
      if !Owns(pods, c) { Recreate(e, c); }
    }

    /** Recreates one Pod for each controller that has none; other Pods are left as they are. */
    method ReconcileControllers() returns (created: set<Uid>)
      modifies this`pods, this`podCounter
      ensures Snapshot() == Reconcile(old(Snapshot()))
      ensures created == pods.Keys - old(pods.Keys)
    {
      hide PartlyReconciled, Reconcile, Owns, Created;
      ghost var e := Snapshot();
      ghost var done: set<Uid> := {};
      var before := pods.Keys;
      var todo := controllers.Keys;
      NothingReconciled(e);
      while todo != {}
        invariant controllers == e.ctrls && done + todo == e.ctrls.Keys && done !! todo
        invariant Snapshot() == PartlyReconciled(e, done)
        decreases |todo|
      {
        var c :| c in todo;
        Serve(e, done, c);
        todo := todo - {c};
        done := done + {c};
      }
      assert done == e.ctrls.Keys;
      AllReconciled(e);
      created := pods.Keys - before;
    }

    method RemovePods(victims: set<Uid>)
      modifies this`pods
      ensures pods == old(pods) - victims
    {
      var todo := victims;
      while todo != {}
        invariant todo <= victims && pods == old(pods) - (victims - todo)
        decreases |todo|
      {
        var u :| u in todo;
        pods := pods - {u};
        todo := todo - {u};
      }
    }

    /** Deletes a controller and, in the foreground, every Pod it owns. */
    method RemoveController(c: Uid)
      modifies this`pods, this`controllers
      ensures Snapshot() == Defend(old(Snapshot()), DeleteController(c))
    {
      controllers := controllers - {c};
      RemovePods(set u | u in pods && pods[u].owner == Some(c));
    }

    method RemoveControllers(victims: set<Uid>)
      modifies this`pods, this`controllers
      ensures controllers == old(controllers) - victims
      ensures pods == WithoutOwned(old(pods), victims)
    {
      var todo := victims;
      while todo != {}
        invariant todo <= victims && controllers == old(controllers) - (victims - todo)
        invariant pods == WithoutOwned(old(pods), victims - todo)
        decreases |todo|
      {
        var c :| c in todo;
        RemoveController(c);
        todo := todo - {c};
      }
    }

    /** One defender action, in place. */
    method ApplyDefenderAction(a: Action)
      modifies this
      ensures Snapshot() == Defend(old(Snapshot()), a)
    {
      match a {
        case RemoveBinding(key) => bindings := bindings - {key};
        case DeletePod(uid) => pods := pods - {uid};
        case DeleteController(uid) => RemoveController(uid);
        case DeletePodsExcept(acct, keep) =>
          RemovePods(set u | u in pods && pods[u].Acct() == acct && u !in keep);
        case DeleteControllersExcept(acct, keep) =>
          RemoveControllers(set c | c in controllers && controllers[c].Acct() == acct && c !in keep);
        case DeleteServiceAccount(acct) => serviceAccounts := serviceAccounts - {acct};
        case Rotate(service) => RotateDownstream(service);
        case Wait(seconds) => time := time + seconds;
      }
    }

    method RotateDownstream(service: string)
      modifies this`secrets, this`services
      ensures Snapshot() == Defend(old(Snapshot()), Rotate(service))
    {
      if service in services {
        var svc := services[service];
        var current := if svc.source in secrets then secrets[svc.source] else 0;
        var version := (if svc.accepted > current then svc.accepted else current) + 1;
        if svc.source in secrets {
          secrets := secrets[svc.source := version];
        }
        var grace := svc.grace;
        if svc.delay > 0 {
          grace := grace + {Grace(svc.accepted, time + svc.delay)};
        }
        services := services[service := svc.(accepted := version, grace := grace)];
      }
    }
  }

  function WithoutOwned(pods: map<Uid, Pod>, owners: set<Uid>): map<Uid, Pod> {
    map u | u in pods && !(pods[u].owner.Some? && pods[u].owner.value in owners) :: pods[u]
  }

  // ---------------------------------------------------------------- reconciliation, controller by controller

  function OwnedBy(m: map<Uid, Pod>, done: set<Uid>): map<Uid, Pod> {
    map u | u in m && u.Replica? && u.owner in done :: m[u]
  }

  function Only(m: map<Uid, int>, done: set<Uid>): map<Uid, int> {
    map c | c in m && c in done :: m[c]
  }

  ghost function PartlyReconciled(e: Env, done: set<Uid>): Env {
    e.(pods := e.pods + OwnedBy(NewReplicas(e), done), counters := e.counters + Only(NewCounters(e), done))
  }

  lemma OneMoreOwned(base: map<Uid, Pod>, m: map<Uid, Pod>, done: set<Uid>, r: Uid)
    requires r.Replica? && r in m && r.owner !in done && forall u :: u in m && u.Replica? && u.owner == r.owner ==> u == r
    ensures base + OwnedBy(m, done + {r.owner}) == (base + OwnedBy(m, done))[r := m[r]]
  {
  }

  lemma NoMoreOwned(m: map<Uid, Pod>, done: set<Uid>, c: Uid)
    requires forall u :: u in m && u.Replica? ==> u.owner != c
    ensures OwnedBy(m, done + {c}) == OwnedBy(m, done)
  {
  }

  lemma OneMoreOnly(base: map<Uid, int>, m: map<Uid, int>, done: set<Uid>, c: Uid)
    requires c !in done
    ensures base + Only(m, done + {c}) == if c in m then (base + Only(m, done))[c := m[c]] else base + Only(m, done)
  {
  }

  lemma NothingReconciled(e: Env)
    ensures PartlyReconciled(e, {}) == e
  {
    var p := PartlyReconciled(e, {});
    assert p.pods == e.pods && p.counters == e.counters;
  }

  lemma AllReconciled(e: Env)
    ensures PartlyReconciled(e, e.ctrls.Keys) == Reconcile(e)
  {
    NewReplicaOwners(e);
    assert OwnedBy(NewReplicas(e), e.ctrls.Keys) == NewReplicas(e);
    assert Only(NewCounters(e), e.ctrls.Keys) == NewCounters(e);
  }

  lemma NewReplicaOwners(e: Env)
    ensures forall u :: u in NewReplicas(e) <==> u.Replica? && u.owner in Needy(e) && u.k == NextNumber(e, u.owner)
    ensures forall u :: u in NewReplicas(e) ==>
      u !in e.pods && u.owner in e.ctrls && NewReplicas(e)[u] == ReplicaOf(e.ctrls[u.owner], u.owner, u.k)
  {
    forall u
      ensures u in NewReplicas(e) <==> u.Replica? && u.owner in Needy(e) && u.k == NextNumber(e, u.owner)
    {
      if u.Replica? && u.owner in Needy(e) && u.k == NextNumber(e, u.owner) {
        assert u == Replica(u.owner, NextNumber(e, u.owner));
      }
    }
  }

  /** `p` with the replica that `c` still lacks. */
  function Served(e: Env, p: Env, c: Uid): Env
    requires c in e.ctrls
  {
    var k := NextNumber(e, c);
    p.(pods := p.pods[Replica(c, k) := ReplicaOf(e.ctrls[c], c, k)], counters := p.counters[c := k])
  }

  /** What handling one more controller adds. */
  lemma OneMore(e: Env, done: set<Uid>, c: Uid)
    requires c in e.ctrls && c !in done
    ensures Owns(PartlyReconciled(e, done).pods, c) <==> Owns(e.pods, c)
    ensures NextNumber(PartlyReconciled(e, done), c) == NextNumber(e, c)
    ensures Replica(c, NextNumber(e, c)) !in PartlyReconciled(e, done).pods && Replica(c, NextNumber(e, c)) !in e.pods
    ensures PartlyReconciled(e, done + {c}) ==
      if Owns(e.pods, c) then PartlyReconciled(e, done) else Served(e, PartlyReconciled(e, done), c)
  {
    hide NextNumber, ReplicaOf, NewReplicas, Needy, OwnedBy, Only, NewCounters, Owns;
    NewReplicaOwners(e);
    OneMorePods(e, done, c);
    OneMoreNumber(e, done, c);
    NeedyDef(e, c);
    CounterDef(e, c);
    OneMoreOnly(e.counters, NewCounters(e), done, c);
    if Owns(e.pods, c) {
      NoMoreOwned(NewReplicas(e), done, c);
    } else {
      OneMoreOwned(e.pods, NewReplicas(e), done, Replica(c, NextNumber(e, c)));
    }
  }

  lemma CounterDef(e: Env, c: Uid)
    ensures c in NewCounters(e) <==> c in Needy(e)
    ensures c in Needy(e) ==> NewCounters(e)[c] == NextNumber(e, c)
  {
  }

  lemma NeedyDef(e: Env, c: Uid)
    requires c in e.ctrls
    ensures c in Needy(e) <==> !Owns(e.pods, c)
  {
  }

  lemma OneMorePods(e: Env, done: set<Uid>, c: Uid)
    requires c in e.ctrls && c !in done
    requires forall u :: u in NewReplicas(e) ==>
      u.Replica? && u !in e.pods && u.owner in e.ctrls && NewReplicas(e)[u] == ReplicaOf(e.ctrls[u.owner], u.owner, u.k)
    ensures Owns(PartlyReconciled(e, done).pods, c) <==> Owns(e.pods, c)
    ensures forall j :: Replica(c, j) in PartlyReconciled(e, done).pods <==> Replica(c, j) in e.pods
  {
    hide NewReplicas, NewCounters;
    var p := PartlyReconciled(e, done);
    if Owns(e.pods, c) {
      var u :| u in e.pods && e.pods[u].owner == Some(c);
      assert u in p.pods && p.pods[u] == e.pods[u];
    }
  }

  lemma OneMoreNumber(e: Env, done: set<Uid>, c: Uid)
    requires c in e.ctrls && c !in done
    requires forall j :: Replica(c, j) in PartlyReconciled(e, done).pods <==> Replica(c, j) in e.pods
    ensures NextNumber(PartlyReconciled(e, done), c) == NextNumber(e, c)
    ensures Replica(c, NextNumber(e, c)) !in PartlyReconciled(e, done).pods && Replica(c, NextNumber(e, c)) !in e.pods
  {
    hide NewReplicas;
    var p := PartlyReconciled(e, done);
    FirstFreeLocal(p.pods.Keys, e.pods.Keys, c, (if c in e.counters then e.counters[c] else 0) + 1);
  }
}
