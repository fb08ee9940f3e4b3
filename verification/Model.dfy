/** The typed analysis input: Kubernetes objects, credentials, facts and defender actions.
    Values only; parsing is outside the model. */
module Model {

  datatype Option<+T> = None | Some(value: T)

  /** A service account, by namespace and name. */
  datatype Account = Account(ns: string, name: string)

  /** A username, already parsed: `system:serviceaccount:<ns>:<name>` or anything else. */
  datatype User = SaUser(account: Account) | OtherUser(name: string)

  /** Object UIDs. The engine and the reference checker build their own UIDs from a
      prefix, an account and a number; `Replica(c, k)` is the text `<c>-p<k>`, so an
      inventory object whose UID has that form is written with this constructor too. */
  datatype Uid =
    | Given(id: string)
    | ModelPod(account: Account, interval: int)
    | ModelDeploy(account: Account, interval: int)
    | RefPod(account: Account, n: nat)
    | RefDeploy(account: Account, n: nat)
    | Replica(owner: Uid, k: int)

  datatype Pod = Pod(ns: string, name: string, sa: string, audiences: seq<string>, owner: Option<Uid>)
  {
    function Acct(): Account { Account(ns, sa) }
  }

  datatype Controller = Controller(ns: string, name: string, sa: string, audiences: seq<string>)
  {
    function Acct(): Account { Account(ns, sa) }
  }

  /** Key of a role or binding; `None` is cluster scope. */
  datatype ObjKey = ObjKey(ns: Option<string>, name: string)

  datatype PolicyRule = PolicyRule(verbs: set<string>, resources: set<string>, names: Option<set<string>>)
  {
    predicate Matches(verb: string, resource: string, name: Option<string>) {
      if "*" !in verbs && verb !in verbs then false
      else if "*" !in resources && resource !in resources then false
      else if names.None? then true
      else name.Some? && name.value in names.value
    }
  }

  datatype Group = Authenticated | AllServiceAccounts | NamespaceServiceAccounts(ns: string) | OtherGroup(name: string)

  datatype Subject =
    | SaSubject(account: Account)
    | UserSubject(user: User)
    | GroupSubject(group: Group)

  datatype Binding = Binding(ns: Option<string>, toRole: bool, roleName: string, subjects: seq<Subject>)

  datatype SecretKey = SecretKey(ns: string, name: string)

  datatype Grace = Grace(version: int, until: int)

  datatype Service = Service(source: SecretKey, accepted: int, delay: nat, grace: set<Grace>)
  {
    predicate Accepts(version: int, time: int) {
      version == accepted || exists g :: g in grace && g.version == version && time < g.until
    }
  }

  /** `allowed` maps a creator to the accounts it may use; `wildcard` is the entry for `*`.
      In a list of names, `any` stands for the entry `*`. */
  datatype Names = Names(any: bool, names: set<string>)
  datatype Policy = Policy(ns: string, supported: bool, allowed: map<User, Names>, wildcard: Option<Names>)

  datatype CredId = InputCred(name: string) | Projected(pod: Uid, audience: string)

  datatype Cred = Cred(
    id: CredId, kind: string, user: User, saUid: Option<string>, boundPod: Option<Uid>,
    audience: string, expires: Option<int>)

  datatype Action =
    | RemoveBinding(key: ObjKey)
    | DeletePod(uid: Uid)
    | DeleteController(uid: Uid)
    | DeletePodsExcept(account: Account, keep: set<Uid>)
    | DeleteControllersExcept(account: Account, keep: set<Uid>)
    | DeleteServiceAccount(account: Account)
    | Rotate(service: string)
    | Wait(seconds: nat)

  /** The parts of the input that no step changes. */
  datatype Static = Static(
    roles: map<ObjKey, seq<PolicyRule>>, policies: seq<Policy>, api: seq<string>, ttl: nat)
  {
    ghost predicate Valid() { api != [] && ttl >= 1 }
  }

  /** The environment at one instant. */
  datatype Env = Env(
    time: int, sas: map<Account, string>, pods: map<Uid, Pod>, ctrls: map<Uid, Controller>,
    bindings: map<ObjKey, Binding>, secrets: map<SecretKey, int>, services: map<string, Service>,
    counters: map<Uid, int>)

  // ---------------------------------------------------------------- created objects

  /** Objects an attacker creates during a run, in either naming scheme, and their replicas. */
  predicate Created(u: Uid) {
    match u
    case Given(_) => false
    case Replica(o, _) => Created(o)
    case _ => true
  }

  /** The account a created object runs as, read off its UID. */
  function Class(u: Uid): Account {
    match u
    case Given(_) => Account("", "")
    case Replica(o, _) => Class(o)
    case ModelPod(a, _) => a
    case ModelDeploy(a, _) => a
    case RefPod(a, _) => a
    case RefDeploy(a, _) => a
  }

  /** The object whose creation a created object goes back to. */
  function Root(u: Uid): Uid {
    match u
    case Replica(o, _) => Root(o)
    case _ => u
  }

  /** A Pod created directly, not by a controller. */
  predicate Standalone(u: Uid) { u.ModelPod? || u.RefPod? }

  predicate CreatedDeploy(u: Uid) { u.ModelDeploy? || u.RefDeploy? }

  // ---------------------------------------------------------------- text of generated names

  function Digits(n: nat): string {
    if n < 10 then ["0123456789"[n]] else Digits(n / 10) + ["0123456789"[n % 10]]
  }

  function Dec(k: int): string { if k < 0 then "-" + Digits(-k) else Digits(k) }

  function Text(u: Uid): string {
    match u
    case Given(s) => s
    case ModelPod(a, i) => "model-pod:" + a.ns + ":" + a.name + ":i" + Dec(i)
    case ModelDeploy(a, i) => "model-deploy:" + a.ns + ":" + a.name + ":i" + Dec(i)
    case RefPod(a, n) => "ref-pod:" + a.ns + ":" + a.name + ":" + Dec(n)
    case RefDeploy(a, n) => "ref-deploy:" + a.ns + ":" + a.name + ":" + Dec(n)
    case Replica(o, k) => Text(o) + "-p" + Dec(k)
  }

  function ReplicaName(name: string, k: int): string { name + "-p" + Dec(k) }
}
