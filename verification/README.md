# Afterlock: a verified model

Afterlock takes a Kubernetes inventory, what is known about an attacker's foothold and a sequence of
remediation actions, and decides whether the attacker can still reach an objective when the
sequence is finished. This project models the parts that decide, and proves what they decide.

**The capability engine and its independent reference checker.** The engine
(`packages/afterlock/engine.py`) saturates every attacker rule once per interval between two
defender actions, keeping at most one attacker-created Pod and one Deployment per service account.
The reference (`packages/afterlock_reference/__init__.py`) explores single attacker and defender
steps one state at a time. `Attack` defines the plain meaning both are about: runs of single
attacker steps, with any number of created workloads under any fresh names, interleaved with the
defender's actions in order. The main results are

- whatever the engine reports some run attains, for every input the parser accepts
  (`Exactness.EngineComplete`), and whatever some run attains the engine reports, as long as no two
  Pods clash under one UID (`Exactness.EngineSound`);
- that condition is exact: the engine is right for all facts, credentials, roles, bindings, policies,
  Secrets, services and objectives, at every interval, if and only if no two Pods clash
  (`ClashMisses.NoClashIsExact`), and every input has a run (`Termination.RunExists`);
- the reference explorer attains exactly the same objectives, with any limit of at least one live created
  workload per account (`Agreement.EngineAgreesWithExplorer`, `Explorer.ExploreView`,
  `Explorer.Differential`);
- a witness the engine emits is accepted by the reference's replay exactly when each piece of evidence
  it starts from was claimed directly and each token in it is used while its Pod runs as the account
  the token was last taken for (`Acceptance.WitnessReplays`); always, when no UID changes its account
  and historical Pods are claimed directly too (`Acceptance.ConsistentReplays`);
- `contained_within_scope` in full mode means that both fixpoints were reached, that nothing undecided
  was met on the way, history included, and, without clashes, that no run of either view attains any
  objective (`Results.Analyze`); a plan the planner returns brings just that about
  (`Planning.PlanFor`);
- the engine stops without its cap (`Termination.FiringBelow`, and the `decreases` clause of the
  loop in `Engine.Engine.Closure`);
- the lesser modes and the evidence view report no more than the greater ones (`Orderings`), a dead
  attacker stays dead (`DeadAttacker`, `Lifetimes`), and after a rotation's delay only Secret
  versions read after the rotation are of use (`Rotation`).

The simulation behind soundness is in `Cover`: a world covers another when it has a live
representative workload wherever the other has any, and for each credential one that lasts at least
as long. `Shape` shows that every environment reached is the attack-free environment of its phase
plus whole created objects, so that the defender acts on both alike. `Tenure` deals with the one
table entry per Pod UID and audience: it gives the attacker every token ever taken and shows that
the entries left are as good, unless Pods clash.

**The planner** (`packages/afterlock/planner.py`): its uniform-cost search returns a plan that no
valid sequence within the bounds undercuts, and says that there is none only when there is none.

**Leased jobs and their worker** (`services/api`, `services/worker`): over any interleaving of
workers, stale leases, cancellations and clock readings a job is published at most once, by the
holder of its current lease, and what is published is the executor's output on an intact manifest.

**The evidence path**: the spool recovers exactly its whole lines after a crash at any byte, the
bundle writer continues its numbering, the projector does not depend on delivery order or repetition
and finds the least set of attacker Pods, and under any interleaving of the list/watch loops each
keeps its slice of the inventory equal to the server's state at the loop's resource version and
records a gap between any two of its streams.

## How it is laid out

| files | about |
|---|---|
| Model, Semantics, Attack | inventory, semantics of access and of defender actions, single steps and runs |
| Shape, Cover | the shape of reached environments; the covering simulation |
| Rules, Fixpoint, Legality, Termination | the engine's rules as firings: closed tables, firings are runs, firings come to an end |
| Tenure, Homes | what becomes of tokens that are overwritten; UIDs that never change their account |
| Case, Interleavings, Exactness | whole engine runs against all runs of single steps |
| Standstill, ClashMisses, ReplicaClash, TwoHistories, ForeignIds | when and why the engine misses an attack |
| LiveEnv, EngineStatus, Engine, Results | the mutable environment, the engine's loops, `analyze` |
| Reference, Frozen, Canonical, Agreement, Explorer | the reference's steps and rows, its breadth-first search, agreement with the engine |
| Provenance, Story, Creations, Replay, Witnesses, Testimony, PastSupport, Acceptance, Unclaimed, Overtaken | derivations, witnesses and their replay |
| Orderings, HistoryPhase, DeadAttacker, Lifetimes, Rotation | laws about views, modes, lifetimes and rotations |
| Planner, Ordering, Planning | the containment planner |
| Jobs, JobRuns, Storage, Worker | the job protocol |
| Spool, Bundle, Evidence, InventoryStore, Watch | the evidence path |

Code that changes state step by step is a class with loops (`LiveEnv`, `Engine`, `Tracer`,
`MemoryStorage`, `Spool`, `Store`, `Collector`) whose methods are tied to specification functions;
the laws are lemmas about those functions and about runs.

## What inputs are assumed

`Case.Parsed` holds what the input parser checks: UIDs of the input do not use its two reserved
prefixes, facts name credentials that exist, owners exist, there is an objective, the history window
begins no later than the analysis time. The parser leaves the following to its callers, each a named
condition that can be checked before a run:

- `Case.NothingReserved`: the input does not use the names of the reference checker's own objects
  (`ref-pod:`, `ref-deploy:`), and no action keeps an object under a reserved name.
- Namespaces and service-account names without colons, so that a UID or username made of several
  parts can be read in one way only: UIDs, usernames and credential ids are datatypes here.
- `Case.OwnIds`: no input credential has the id of a projected token. Ids need only be distinct
  (`model.py:652`), so `projected:<uid>:<audience>` passes. `ForeignIds.SharedIdHidesAttack` and
  `ForeignIds.OverwrittenIdHidesAttack` are inputs without this on which the engine misses a Secret
  read: it takes the input's credential for the Pod's token, or replaces it by that.
- `Case.OneHistory`: no two historical claims give one UID to different accounts. Nothing makes
  initial facts unique, the engine keeps the first claim (`engine.py:436`) and the reference explores
  all. `TwoHistories.SecondClaimHidden` is an input without this on which the engine misses an attack.
- `Exactness.ClashFree`: in the environments the inventory goes through without an attacker, the
  history's and one per interval, no UID's Pod runs as another account than an earlier Pod under that
  UID did, while no time has passed, both accounts exist and the later Pod's tokens would be taken by
  the API only for audiences the earlier Pod had tokens for too. The inventory, the historical Pods
  and the actions decide this.

Where two Pods clash the engine holds on to the first one's token, because a fresh one would not
expire later, and never takes the token of the other account, although `engine.py` promises that its
fixpoint joins all interleavings (lines 8-11). `ClashMisses.ClashIsMissed` turns every clash into a
case, over the same inventory, historical Pods and actions up to the interval of the clash, on which
the engine misses an attack; so `ClashFree` is not only enough but needed. The case ends with that
interval: if a later action lets time pass, the engine takes the new token then and may catch up by
the end of the whole sequence. `ReplicaClash.StaleTokenHidesAttack` is a clash by the numbers.

The replay of witnesses falls short of its promise in two ways. `Acceptance.WitnessReplays` states
exactly when it accepts.

- A Pod recorded only as a historical one, without a `controls_pod` fact of its own, becomes an
  evidence step that the replay looks for among the input facts and does not find; the same goes for
  a fact claimed again as an inferred one. `Unclaimed.HistoryAloneFails` gives an input with its run
  and witness that the replay rejects, and `Evidence.HistoricalAlsoControlled` shows that the evidence
  projector always supplies the missing fact.
- The engine's table has one entry per Pod UID and audience. When a UID changes its account and time
  passes, the entry becomes the new account's token, and a witness that used the old one is replayed
  with the new one. `Overtaken.TrueWitnessRejected` gives an input whose attack is real and whose
  witness the replay rejects. While no UID changes its account this cannot happen
  (`Acceptance.ConsistentReplays`).

## Model

| member | source | states |
|---|---|---|
| Semantics.FirstFree | packages/afterlock/semantics.py:241-246 | The search for a replacement's number ends and skips exactly the numbers taken. |
| Semantics.ReconcileServesAll | packages/afterlock/semantics.py:229-249 | After reconciliation every controller owns a Pod. |
| Semantics.ReconcileKeepsPods | packages/afterlock/semantics.py:229-249 | No Pod is dropped or replaced; each new one is a replacement for a controller that owned none. |
| Semantics.ReconcileNumbersRise | packages/afterlock/semantics.py:229-249 | A controller's replica number rises with each replacement and never falls, so none is reused. |
| Semantics.ReconcileTwice | packages/afterlock/semantics.py:229-249 | Reconciliation is idempotent. |
| Semantics.DefendShrinks | packages/afterlock/semantics.py:252-315 | A defender action adds no Pod, controller or service account and does not turn time back. |
| LiveEnvironment.LiveEnv.FromInventory | packages/afterlock/semantics.py:51-62 | The live environment starts with the contents of the keyed inventory. |
| LiveEnvironment.LiveEnv.Clone | packages/afterlock/semantics.py:64-76 | A clone has the same contents and is independent of its original. |
| LiveEnvironment.LiveEnv.ReconcileControllers | packages/afterlock/semantics.py:229-249 | The in-place loop over controllers gives the one-shot reconciliation of the old state and returns exactly the Pods it added. |
| LiveEnvironment.LiveEnv.RemovePods | packages/afterlock/semantics.py:252-315 | Deleting Pods in place removes exactly the named ones. |
| LiveEnvironment.LiveEnv.RemoveControllers | packages/afterlock/semantics.py:252-315 | Deleting controllers one by one removes them and all Pods they own, nothing else. |
| LiveEnvironment.LiveEnv.RotateDownstream | packages/afterlock/semantics.py:289-308 | An in-place rotation moves the Secret, the accepted version and the grace periods of the one service as specified. |
| LiveEnvironment.LiveEnv.ApplyDefenderAction | packages/afterlock/semantics.py:252-315 | Every kind of action changes the live environment as its specification says and nothing else. |
| Shape.RestrictReconcile | packages/afterlock/semantics.py:229-249 | Reconciling and then forgetting some created objects is the same as forgetting them first. |
| Shape.RestrictDefend | packages/afterlock/semantics.py:252-315 | The same for every defender action: created objects never influence what happens to the others. |
| Shape.StepKeepsInv | packages/afterlock_reference/__init__.py:257-329 | No attacker step disturbs the attack-free part of the environment. |
| Shape.DefendKeepsInv | packages/afterlock_reference/__init__.py:213-251 | After a defender action the attack-free part is the attack-free environment of the next phase, whatever the attacker created. |
| Rules.UseTimeIsExact | packages/afterlock/engine.py:175-204 | The one instant the engine chooses passes expiry exactly when some instant of the history window does. |
| Cover.StepCovered | packages/afterlock/engine.py:232-249 | One representative per account loses nothing: a saturated world that covers another still covers it after any attacker step. |
| Cover.ActsCovered | packages/afterlock/engine.py:8-11 | One saturation covers every sequence of attacker steps in its interval. |
| Cover.DefendCovered | packages/afterlock/engine.py:8-11 | Covering survives every defender action, including the deletion of workloads of an account. |
| Cover.ViolationCovered | packages/afterlock_reference/__init__.py:332-350 | What violates an objective in a covered world violates it in the covering one. |
| Fixpoint.FiringKeepsGood | packages/afterlock/engine.py:251-350 | Every rule keeps the engine's invariant between facts, credentials and live objects. |
| Tenure.StillTabled | packages/afterlock/engine.py:275-293 | However often tokens were overwritten, one that is still usable has a usable one of the same user under its id. |
| Tenure.TokenOrEqual | packages/afterlock/engine.py:275-293 | A token not taken because one is stored that lasts as long is no loss, unless Pods clash: some token ever taken is as good. |
| Tenure.LineSaturated | packages/afterlock/engine.py:251-350 | When no rule is ready and no Pod clashes with an earlier one, no single step gains anything for an attacker who kept every token ever taken. |
| Tenure.LineGoals | packages/afterlock/engine.py:317-348 | The closed tables record every objective such an attacker violates. |
| Tenure.FiringsRetain | packages/afterlock/engine.py:275-293 | A saturation changes the table of credentials only by tokens taken in its own environment, and drops no id. |
| Homes.StageHome | packages/afterlock/engine.py:457-469 | If a controller never reuses a UID of another account's Pod, every Pod of every interval runs as the account its UID stands for. |
| Legality.FiringEnabled | packages/afterlock/engine.py:251-399 | Whenever a rule fires, the single attacker step it stands for is possible. |
| Legality.FiringsAreARun | packages/afterlock/engine.py:251-399 | The additions of a closure, in order, are one legal run, and every goal recorded is violated at its end. |
| Termination.FiringBelow | packages/afterlock/engine.py:251-350 | Each firing lowers a well-founded distance over missing workloads, Pods, Secrets, tokens, sources and goals. |
| Termination.FiringsBelow | packages/afterlock/engine.py:251-350 | So does every non-empty sequence of firings: the closure ends without its cap. |
| Termination.RunExists | packages/afterlock/engine.py:416-486 | Every input the parser accepts has a complete run in every view and mode, so the statements about all runs are about something. |
| Interleavings.LadderGood | packages/afterlock/engine.py:457-469 | The engine's invariant holds at the end of every interval. |
| Interleavings.RunCovered | packages/afterlock/engine.py:457-469 | Along every run, each state is covered by the fixpoint of its interval. |
| Interleavings.FinalCovered | packages/afterlock/engine.py:8-11 | An objective violated at the end of any run from a covered start is violated in the last of a ladder of saturated worlds. |
| Exactness.GainCovered | packages/afterlock/engine.py:424-445 | What any run of the history window gains is covered by the tables the main phase starts from. |
| Exactness.ErasSucceed | packages/afterlock/semantics.py:229-315 | Over the attack-free environments, history's first, a Pod under a UID is either the one that was there or runs as the account of the controller that recreated it. |
| Exactness.EngineLine | packages/afterlock/engine.py:416-469 | The saturations of a run, one after the other, go through those environments plus created objects, and change the credentials only by taking tokens. |
| Exactness.LineSound | packages/afterlock/engine.py:8-11 | Without clashes, an objective violated at the end of any run from a covered start is among the goals of the last interval. |
| Exactness.EngineSound | packages/afterlock/engine.py:8-11 | Soundness: without clashes, an objective attained by any interleaving is in the final goals, in full and in lifecycle-blind mode. |
| Exactness.EngineComplete | packages/afterlock/engine.py:8-11 | Completeness, for every input the parser accepts: one run, history window included, attains every goal the full-mode engine reports. |
| ClashMisses.ClashFreeVaries | packages/afterlock/engine.py:275-293 | Other facts, credentials, permissions, Secrets, services or objectives, fewer historical claims and fewer actions bring no clash with them. |
| ClashMisses.ClashTurns | packages/afterlock/semantics.py:229-315 | Of every clash there is an earliest interval at which a recreated Pod of the other account has the UID, and until then only the first Pod has it. |
| ClashMisses.EngineMisses | packages/afterlock/engine.py:275-293 | In the case made of a clash no run of the engine ever holds a token of the second account that the API takes, and it reports nothing. |
| ClashMisses.AttackWorks | packages/afterlock_reference/__init__.py:257-329 | There the attacker waits, takes the second Pod's token and reads the Secret. |
| ClashMisses.ClashIsMissed | packages/afterlock/engine.py:275-293 | Every clash makes every run of the engine miss an attainable objective, on some case over the same inventory, historical Pods and actions up to it. |
| ClashMisses.NoClashIsExact | packages/afterlock/engine.py:8-11 | The engine never misses an attack, whatever facts, permissions and objectives come with the inventory and at whatever interval, if and only if no two Pods clash. |
| Standstill.OnlyTokens | packages/afterlock/engine.py:251-350 | An engine all of whose usable tokens are of a powerless account can do nothing but take further tokens of the one Pod it controls. |
| Engine.Engine.constructor | packages/afterlock/engine.py:156-165 | A run starts with empty tables and no derivation counted. |
| Engine.Engine.Add | packages/afterlock/engine.py:224-230 | A known fact changes nothing; a new one is counted and recorded in the persistent or the interval's table. |
| Engine.Engine.Usable | packages/afterlock/engine.py:190-204 | Accepts exactly the usable credentials of the current phase and notes exactly the undecided ones. |
| Engine.Engine.ControllerPods | packages/afterlock/engine.py:256-265 | A pass that changes nothing leaves no Pod of a controlled controller unclaimed. |
| Engine.Engine.TakeToken | packages/afterlock/engine.py:273-293 | A token is stored exactly when none that lasts as long is stored. |
| Engine.Engine.ProjectedTokens | packages/afterlock/engine.py:266-293 | A pass that changes nothing leaves no token of a controlled Pod to take or refresh. |
| Engine.Engine.CreateEverywhere | packages/afterlock/engine.py:352-399 | A pass that changes nothing leaves no account without its representative where the credential may create one, and has noted every undecided admission. |
| Engine.Engine.ExecIntoAll | packages/afterlock/engine.py:307-315 | A pass that changes nothing leaves no Pod to enter. |
| Engine.Engine.ReadAll | packages/afterlock/engine.py:316-331 | A pass that changes nothing leaves no Secret to read or learn. |
| Engine.Engine.AllRequests | packages/afterlock/engine.py:294-331 | A pass over all credentials that changes nothing leaves no request to make. |
| Engine.Engine.Downstream | packages/afterlock/engine.py:332-340 | A pass that changes nothing leaves no service credential underived. |
| Engine.Engine.UseServices | packages/afterlock/engine.py:341-348 | A pass that changes nothing leaves no usable service unrecorded. |
| Engine.Engine.Pass | packages/afterlock/engine.py:253-350 | One pass only fires ready rules; if it changes nothing, no rule is ready and everything undecided is noted. |
| Engine.Engine.Closure | packages/afterlock/engine.py:251-350 | The loop ends with a saturation of the tables it began with, or with the cap passed. |
| Engine.Engine.Initialise | packages/afterlock/engine.py:206-222 | The tables start with exactly the facts the view and mode keep. |
| Engine.Engine.Recall | packages/afterlock/engine.py:424-445 | The history environment is the inventory plus the historical Pods that are not in it, each as its first claim has it, and control of each is added unless known. |
| Engine.Engine.HistoryPhase | packages/afterlock/engine.py:424-445 | The main phase starts from a saturation of the history window, with everything it left undecided noted, or from the initial tables where the phase does not run. |
| Engine.Engine.MainPhase | packages/afterlock/engine.py:457-486 | One saturation per interval, each from the last one's tables and the reconciled environment after the next action. |
| Engine.Engine.FinalPhase | packages/afterlock/engine.py:447-455 | The baselines apply every action first and saturate once. |
| Engine.RunView | packages/afterlock/engine.py:416-486 | A view either passes its cap or is a complete engine run whose goals, facts, environment and interval records are those of the run's last stage, with everything undecided on record, history included. |
| Results.PreservedWorks | packages/afterlock/semantics.py:318-343 | A preserved operation works: the Pod's own token is accepted and may read the Secret, or read the version the service accepts. |
| Results.GoalsAreReal | packages/afterlock/engine.py:8-11 | For every input the parser accepts, each goal of a finished full-mode view is attained by some run. |
| Results.GoalsAreAttainable | packages/afterlock/engine.py:8-11 | Without clashes a finished full-mode view reports an objective if and only if some run attains it. |
| Results.BlindGoalsCover | packages/afterlock/engine.py:175-204 | Without clashes the lifecycle-blind baseline reports every attainable objective. |
| Results.LegitUndisturbed | packages/afterlock/engine.py:495-506 | What the attacker created has no bearing on whether a legitimate operation of one of the cluster's Pods is preserved: the attack-free final environment decides. |
| Results.Analyze | packages/afterlock/results.py:38-160 | Statuses and conclusion of both views: violated and possibly violated are attainable in the evidence or the possible view, and without clashes exactly so; satisfied then rules out every run of both; contained also means fixpoints reached, no coverage gap and nothing undecided, in history either; an operation is reported preserved exactly when the attack-free final environment preserves it. |
| ReplicaClash.StaleTokenHidesAttack | packages/afterlock/engine.py:275-293 | A well-formed input with a clash, an attainable Secret read, and no run of the engine that reports it. |
| TwoHistories.SecondClaimHidden | packages/afterlock/engine.py:430-445 | An input with two historical claims for one UID on which the engine misses what the second makes possible. |
| ForeignIds.SharedIdHidesAttack | packages/afterlock/engine.py:275-293 | An input credential with a projected token's id and a late expiry keeps the engine from taking the Pod's token, and no run reports the Secret read it allows. |
| ForeignIds.OverwrittenIdHidesAttack | packages/afterlock/engine.py:275-293 | One without expiry is replaced by the Pod's token, and the run that does so misses the Secret read it allowed. |
| Reference.CredCheckIsExact | packages/afterlock_reference/__init__.py:141-167 | The reference's earliest-instant rule accepts exactly the credentials usable at some instant of the window, and finds undecided exactly what the engine does. |
| Reference.VerdictsAgree | packages/afterlock_reference/__init__.py:170-184 | The reference's two scans over admission policies and the engine's single loop give the same decision. |
| Reference.RefActIsLegal | packages/afterlock_reference/__init__.py:257-329 | Every step the explorer tries is a legal attacker step under a fresh name. |
| Frozen.DefendAgrees | packages/afterlock_reference/__init__.py:213-251 | The reference's defender actions on frozen rows do what the engine's do on dictionaries, given the non-negative versions the parser demands. |
| Frozen.VersionsStay | packages/afterlock_reference/__init__.py:213-251 | No action or reconciliation makes a version negative, so they agree over whole sequences. |
| Frozen.ReconcileRows | packages/afterlock_reference/__init__.py:197-210 | The reference's loop over controller rows, which looks at the rows added so far, gives the engine's reconciliation. |
| Frozen.Granting | packages/afterlock_reference/__init__.py:105-132 | The reference's loops over bindings, subjects and rules find exactly the bindings the engine finds. |
| Canonical.CanMove | packages/afterlock_reference/__init__.py:257-329 | As long as a state is not saturated, the explorer has a step that brings it closer, even with one live workload per account. |
| Agreement.RefRunIsRun | packages/afterlock_reference/__init__.py:416-437 | Every path of the explorer is a run of single steps. |
| Agreement.RefSaturates | packages/afterlock_reference/__init__.py:257-329 | From every state the explorer can reach a saturated one within its workload limit. |
| Agreement.RefReachIsReach | packages/afterlock_reference/__init__.py:386-414 | What the explorer reaches in the history window, some run of the window reaches. |
| Agreement.UnionCoversGain | packages/afterlock_reference/__init__.py:386-414 | The union over explored histories covers whatever any history gains. |
| Agreement.ExplorerAttains | packages/afterlock_reference/__init__.py:375-443 | The limited explorer attains every objective that any unlimited run attains. |
| Agreement.EngineAgreesWithExplorer | tests/differential/test_engine_vs_reference.py:32-47 | For every well-formed input without clashes, every view and every workload limit of at least one, the engine's final goals are exactly the objectives the explorer can reach. |
| Explorer.GoalsAtExact | packages/afterlock_reference/__init__.py:332-350 | The reference's goal test finds exactly the violated objectives. |
| Explorer.HistorySteps | packages/afterlock_reference/__init__.py:386-414 | Lists exactly the successors of a history state. |
| Explorer.NextStages | packages/afterlock_reference/__init__.py:416-437 | Lists exactly the attacker and defender successors of a state. |
| Explorer.Enqueue | packages/afterlock_reference/__init__.py:386-437 | New states are queued once each, never beyond the bound, and a successor is dropped only when the bound is reached. |
| Explorer.SearchHistories | packages/afterlock_reference/__init__.py:386-414 | The union is made of reached histories; a complete search misses none. |
| Explorer.SearchRuns | packages/afterlock_reference/__init__.py:416-437 | Reports only reached objectives, all of them when complete, and never visits more than `max_states` states. |
| Explorer.ExploreView | packages/afterlock_reference/__init__.py:375-443 | A view's report holds only attainable objectives; a complete one holds exactly the attainable objectives. |
| Explorer.Differential | tests/differential/test_engine_vs_reference.py:32-47 | Whenever engine and explorer both finish, the engine reports nothing the explorer does not, and without clashes they report the same. |
| Provenance.FiringExplained | packages/afterlock/engine.py:251-409 | Each derivation's conditions hold where it was made, its premises were known, and a created object comes with its creation. |
| Provenance.FiringsAccounted | packages/afterlock/engine.py:251-409 | Over any sequence of firings every recorded derivation stays true of its interval, and premises stay ranked below conclusions although a token's derivation is overwritten. |
| Story.StageTold | packages/afterlock/engine.py:424-469 | The same at the end of every interval of a whole run, history phase included. |
| Witnesses.Tracer.Visit | packages/afterlock/engine.py:137-146 | The depth-first visit ends and appends a fact after everything it rests on. |
| Witnesses.Witness | packages/afterlock/engine.py:132-147 | A witness lists each fact once, premises before conclusions, ends with the goal and takes every derivation from the tables. |
| Creations.FiringsGrown | packages/afterlock/engine.py:352-399 | What a closure adds to the environment is exactly a set of created objects named by account and interval, Deployments with their replica 0. |
| Creations.RestrictGrown | packages/afterlock_reference/__init__.py:450-467 | Adding created objects and keeping those a witness declares is adding just the declared ones. |
| Testimony.DeclaredGrown | packages/afterlock_reference/__init__.py:450-467 | Replaying the creations a witness declares one at a time gives the environment grown by all of them. |
| Testimony.ReplayRestricts | packages/afterlock_reference/__init__.py:450-467 | The replay's environment of each interval is the engine's environment of that interval without the objects the witness does not declare. |
| PastSupport.HistorySupported | packages/afterlock_reference/__init__.py:470-481 | The replay's history environment, built in another order than the engine's, still holds every object the witness relies on. |
| Replay.Timeline | packages/afterlock_reference/__init__.py:450-467 | Builds the environments of all intervals with the declared creations. |
| Replay.CheckAll | packages/afterlock_reference/__init__.py:566-601 | Finds no problem exactly when every condition of a step holds. |
| Replay.VerifyWitness | packages/afterlock_reference/__init__.py:489-563 | The single-pass replay finds no problem exactly when each step is acceptable where it stands and the goal is last derived in the final interval. |
| Acceptance.TokensDerived | packages/afterlock_reference/__init__.py:489-563 | The tokens the replay derives are the ones the engine held, refreshed ones included. |
| Acceptance.EvidencePasses | packages/afterlock_reference/__init__.py:514-523 | The replay accepts an evidence step exactly when the input claims its fact and the last claim of it counts in the view. |
| Acceptance.TokenUse | packages/afterlock_reference/__init__.py:566-601 | The replay accepts the use of a token exactly when its Pod then runs as the account it ran as where the witness last takes the token. |
| Acceptance.StepPasses | packages/afterlock_reference/__init__.py:489-563 | A step of an engine witness is accepted exactly when, as evidence, it was claimed directly, or otherwise the tokens it uses pass in that way; all its other conditions always do. |
| Acceptance.WitnessReplays | packages/afterlock_reference/__init__.py:489-563 | An engine witness is accepted if and only if each of its evidence steps was claimed directly and each token is used while its Pod runs as the account it was last taken for. |
| Acceptance.ConsistentReplays | packages/afterlock_reference/__init__.py:489-563 | It is always accepted when no UID changes its account, each historical Pod has its `controls_pod` fact and no claim that counts is repeated as one that does not. |
| Acceptance.EmitAndVerify | packages/afterlock_reference/__init__.py:489-563 | Running a view, emitting the witness of any of its goals and replaying it: the witness is complete, and problems are found exactly in those two cases. |
| Unclaimed.WitnessExists | packages/afterlock/engine.py:132-147 | Every goal of a run has a witness. |
| Unclaimed.BeginsWithEvidence | packages/afterlock/engine.py:132-147 | Every witness begins with a step of evidence. |
| Unclaimed.NothingClaimedFails | packages/afterlock_reference/__init__.py:514-523 | When no direct claim counts in the view, the replay accepts the witness of none of the engine's goals. |
| Unclaimed.HistoryAloneFails | packages/afterlock_reference/__init__.py:514-523 | A concrete input with a Pod known only from history, its run, the witness of its goal, and the replay's objection. |
| Overtaken.TrueWitnessRejected | packages/afterlock_reference/__init__.py:489-563 | A concrete input with every claim in place, its run, the witness of an attainable goal, and the replay's objection, because a later token of another account has overtaken the one the witness used. |
| Overtaken.Overtakes | packages/afterlock/engine.py:273-293 | There every witness of the goal, whatever its order, uses the token in the first interval and takes it in the last. |
| Orderings.EvidenceWithinPossible | packages/afterlock/engine.py:206-222 | What the evidence view can attain, the possible view can. |
| Orderings.FinalWithinFull | packages/afterlock/engine.py:447-455 | Where every inventory controller owns a Pod, each goal of the final-state baseline is attained by some run. |
| Orderings.SnapshotWithinFinal | packages/afterlock/engine.py:447-455 | There too, without clashes, each goal of the snapshot baseline is one of the final-state baseline, although the two start from different facts. |
| Orderings.CompareViews | packages/afterlock/engine.py:206-222 | Without clashes the evidence view's goals are among the possible view's. |
| Orderings.CompareModes | packages/afterlock/engine.py:416-486 | For one view without clashes, snapshot within final-state within full within lifecycle-blind goals, as far as no cap was passed. |
| HistoryPhase.HistoryIsNow | packages/afterlock/engine.py:175-188 | With nothing expired, every step possible in the history window is possible at analysis time. |
| HistoryPhase.HistoryAddsNothing | packages/afterlock/engine.py:424-445 | Where the history phase is skipped, running it anyway would make no further objective attainable. |
| HistoryPhase.PhaseChangesNoGoal | packages/afterlock/engine.py:424-445 | Where the phase is skipped and no Pods clash, an engine run that goes through it anyway ends with the same goals. |
| DeadAttacker.RunSpent | packages/afterlock/semantics.py:229-249 | Along every run, UIDs of Pods that have lived are never handed out again. |
| DeadAttacker.NothingEnabled | packages/afterlock/engine.py:266-331 | With no usable credential, no live controlled Pod with an account and no live controlled controller, no step is possible. |
| DeadAttacker.DeadForGood | packages/afterlock/engine.py:266-331 | Such an attacker stays so in every later state of every run, gains nothing and reads no Secret. |
| DeadAttacker.UnusableForGood | packages/afterlock/semantics.py:140-188 | A credential held, not bound to a Pod the attacker created, that is unusable at some state of a run is unusable at every later one. |
| Lifetimes.FiringSettled | packages/afterlock/engine.py:352-399 | Nothing the engine creates brings back a UID of a Pod that is gone. |
| Lifetimes.StageSteady | packages/afterlock/engine.py:424-469 | At the end of every interval this covers each Pod controlled and each Pod a held token is bound to, those from history included. |
| Lifetimes.EngineTokensDie | packages/afterlock/semantics.py:140-188 | A credential held and unusable at the end of an interval is unusable at the end of every later one. |
| Lifetimes.EngineDeadForGood | packages/afterlock/engine.py:266-331 | Once the engine's attacker has no usable credential, no live controlled Pod with an account and no live controlled controller, no later interval adds to what it holds or yields `can_read_secret`. |
| Rotation.RotationCloses | packages/afterlock/semantics.py:289-308 | A rotation sets a deadline after which the service accepts only versions newer than the one in place. |
| Rotation.StaysClosed | packages/afterlock/semantics.py:289-308 | No later action reopens it: further rotations, of this service or of others on the same Secret, included. |
| Rotation.OnlyNewer | packages/afterlock/model.py:176-191 | Any later phase past the delay accepts only versions above the one rotated away. |
| Rotation.OldKnowledgeUseless | packages/afterlock/semantics.py:289-308 | Whatever any run knew at the rotation is of no use past the delay. |
| Rotation.StageReads | packages/afterlock/engine.py:317-348 | Each Secret version on record is the one the Secret had in the interval of its derivation; evidence and history contribute none newer than the inventory's. |
| Rotation.RotationFreshness | packages/afterlock/engine.py:317-348 | A known version that a rotated service accepts past the delay was read in an interval after the rotation. |
| Planner.Order | packages/afterlock/planner.py:143-183 | Heap entries are totally ordered by cost, then labels, then indices. |
| Planner.LongerIsLater | packages/afterlock/planner.py:143-183 | With non-negative costs, extending a sequence never lowers its key, and raises it strictly. |
| Planner.PopLeast | packages/afterlock/planner.py:143-150 | The pop removes exactly the least entry. |
| Planner.PushExtensions | packages/afterlock/planner.py:174-183 | Pushes exactly the extensions by one unused candidate. |
| Planner.PopKeepsFrontier | packages/afterlock/planner.py:143-183 | Each pop keeps the frontier: what was popped came in strictly increasing order, and every allowed sequence was popped or has a prefix waiting. |
| Planner.LeastOfAll | packages/afterlock/planner.py:143-183 | A popped sequence is the least of all allowed ones not popped before. |
| Planner.Search | packages/afterlock/planner.py:143-202 | The status is honest: optimal means least among all valid sequences (by cost, ties by labels and indices), none means none is valid and all were popped, the security-only plan is least among the contained, incomplete only with the evaluations used up; pops strictly increase. |
| Planner.MakePlan | packages/afterlock/planner.py:135-202 | The plan and the security-only plan cost no more than any valid, respectively contained, sequence within the bounds. |
| Planning.Judge | packages/afterlock/planner.py:131-132 | A sequence judged contained leaves no gap and nothing undecided, and without clashes no objective attainable in either view; judged valid, it also preserves every legitimate operation of the cluster's Pods. |
| Planning.PlanFor | packages/afterlock/planner.py:135-202 | The plan returned contains the attack, preserves the legitimate operations, and no sequence that passes the analysis is cheaper; a security-only plan contains it. |
| Jobs.ClaimKeeps | services/api/afterlock_api/storage.py:274-293 | A claim keeps every invariant, changes no other job's attempts and grants at most one lease, to a job it was due. |
| Jobs.ClaimSettles | services/api/afterlock_api/storage.py:274-293 | The jobs a claim does not lease stay as they are, or were due but cancelled or out of attempts and end as cancelled or failed. |
| Jobs.ClaimTakesFirst | services/api/afterlock_api/storage.py:274-293 | A claim leases the first job in line that is due, past any that are settled on the way, and comes back empty exactly when none is due. |
| Jobs.CompleteKeeps | services/api/afterlock_api/storage.py:318-335 | Publishing keeps results, jobs, manifests and cases linked. |
| Jobs.OpKeeps | services/api/afterlock_api/storage.py:181-356 | Every operation keeps the store's invariant and only lets jobs evolve: attempts never fall, terminal jobs, results and manifests never change. |
| JobRuns.RunKeeps | services/api/afterlock_api/storage.py:22-33 | The same over any interleaving of operations, stale leases and arbitrary clock readings included. |
| JobRuns.OneHolder | services/api/afterlock_api/storage.py:295-300 | Two different leases of a job are never both held, whatever the clocks say. |
| JobRuns.LeasesBounded | services/api/afterlock_api/storage.py:274-293 | The leases issued for a job are its attempts, at most `max_attempts`. |
| JobRuns.StaleForever | services/api/afterlock_api/storage.py:295-300 | A lease from an earlier attempt is never held again. |
| JobRuns.FinishedForever | services/api/afterlock_api/storage.py:269-356 | Terminal jobs never change; they are cancelled exactly when cancellation was requested and succeeded exactly when they have a result. |
| JobRuns.PublishedOnce | services/api/afterlock_api/storage.py:318-335 | A published job's result is the only one it ever has, unchanged, with its manifest and case still there. |
| JobRuns.PublishedByHolder | services/api/afterlock_api/storage.py:318-335 | A result appears only by a completion under the job's current, unexpired, uncancelled lease, and is that completion's output. |
| Storage.MemoryStorage.constructor | services/api/afterlock_api/storage.py:161-179 | A new store is empty and valid. |
| Storage.MemoryStorage.CreateCase | services/api/afterlock_api/storage.py:181-191 | A case is added once, unless the store is full. |
| Storage.MemoryStorage.PutManifest | services/api/afterlock_api/storage.py:209-212 | The first manifest under an id stays. |
| Storage.MemoryStorage.RecordAnalysis | services/api/afterlock_api/storage.py:214-223 | Stores manifest, case and result as specified and returns the result's id exactly when it was stored. |
| Storage.MemoryStorage.Enqueue | services/api/afterlock_api/storage.py:234-246 | A job is queued exactly when the caps and the number of attempts allow it. |
| Storage.MemoryStorage.Claim | services/api/afterlock_api/storage.py:274-293 | The loop over jobs in place gives the specified claim of the old store, lease and retired jobs. |
| Storage.MemoryStorage.Heartbeat | services/api/afterlock_api/storage.py:302-309 | Extends a held lease and reports lost, cancel or ok. |
| Storage.MemoryStorage.MarkRunning | services/api/afterlock_api/storage.py:311-316 | The same, marking the job running when the lease is good. |
| Storage.MemoryStorage.Complete | services/api/afterlock_api/storage.py:318-335 | Publishes exactly when the lease is held and the job not cancelled. |
| Storage.MemoryStorage.Fail | services/api/afterlock_api/storage.py:337-348 | Under a held lease, requeues, fails or cancels as specified; otherwise changes nothing. |
| Storage.MemoryStorage.CancelJob | services/api/afterlock_api/storage.py:258-267 | Cancels a queued job at once and only flags one that is running; the answer is whether the job is there for the caller to see. |
| Storage.MemoryStorage.AcknowledgeCancel | services/api/afterlock_api/storage.py:350-356 | Ends a cancelled job under its held lease only. |
| Storage.MemoryStorage.Meanwhile | services/api/afterlock_api/storage.py:22-33 | Any operations of others between two calls keep the store valid. |
| Worker.ProcessOne | services/worker/afterlock_worker/runner.py:73-115 | Whatever the clock, other workers and the heartbeat thread do, an outcome `succeeded` means the stored result is the executor's output on the job's intact manifest. |
| Worker.Drain | services/worker/afterlock_worker/runner.py:118-126 | The same for every outcome of a bounded drain, still true at its end. |
| Spool.TornTail | services/collector/internal/spool/spool.go:124-140 | After a crash at any byte, what follows the whole lines holds no newline. |
| Spool.NextLine | services/collector/internal/spool/spool.go:124-140 | Before that, the next newline ends exactly the next record's line. |
| Spool.Spool.constructor | services/collector/internal/spool/spool.go:75-120 | A new spool is empty and valid. |
| Spool.Spool.WriteLocked | services/collector/internal/spool/spool.go:227-263 | Appends one record with the next sequence number, or nothing when its line is rejected. |
| Spool.Spool.GapLocked | services/collector/internal/spool/spool.go:197-214 | Adds a gap record exactly when there is room in the reserve. |
| Spool.Spool.Append | services/collector/internal/spool/spool.go:158-188 | Reports a duplicate exactly for a known key, appends with the next number when there is room, and a dropped append leaves a gap record as long as lines are short enough for the reserve and no overflow gap was itself refused as a record. |
| Spool.Spool.ParseExisting | services/collector/internal/spool/spool.go:124-153 | Adopts exactly the records whose whole line survived and reports where the torn tail begins. |
| Spool.Open | services/collector/internal/spool/spool.go:75-120 | Reopening after a crash gives the surviving records and one restart gap; it fails exactly when the limits are too small or the gap has no room or is refused. |
| Spool.Lifetime | services/collector/internal/spool/spool.go:75-263 | Over any number of appends, gaps, exports, crashes at any byte and reopenings: numbers run from 1, keys stay distinct, the reserve holds only gaps, the file is exactly the records' lines; it ends early only at a crash after which the restart gap did not fit or was refused. |
| Spool.Spool.Records | services/collector/internal/spool/spool.go:282-304 | Hands out every record in order without its key, after at most one summary gap about drops. |
| Bundle.WriteEvents | services/collector/internal/bundle/bundle.go:45-91 | Added records continue the numbering, so numbers stay unique and gapless. |
| Bundle.Correlate | services/collector/internal/bundle/bundle.go:160-206 | A Pod UID is filled in exactly when one observed Pod matches the audit record, and is that Pod's; otherwise a gap is recorded and the record stays as it was. |
| Evidence.KeyOrder | packages/afterlock/evidence.py:327-356 | Event keys are totally ordered. |
| Evidence.SortedUnique | packages/afterlock/evidence.py:327-356 | A sorted sequence of events is determined by its set. |
| Evidence.CollectEvents | packages/afterlock/evidence.py:327-356 | Events come out sorted, one per key delivered; a conflict is reported exactly when two deliveries of a key differ, and without one nothing is lost. |
| Evidence.AttributePass | packages/afterlock/evidence.py:405-439 | One round adds only Pods every complete attribution has, and adds none exactly when the attribution is complete. |
| Evidence.Attribute | packages/afterlock/evidence.py:405-439 | The loop ends with the least set of Pods closed under creation, exec and ownership by the attacker. |
| Evidence.LeastIsUnique | packages/afterlock/evidence.py:405-439 | That set does not depend on the order of the events. |
| Evidence.ProjectFacts | packages/afterlock/evidence.py:440-545 | Each fact is supported by exactly the events that show it, and the coverage gaps are exactly those the events reveal. |
| Evidence.Project | packages/afterlock/evidence.py:367-545 | The whole projection from delivered lines to facts, credentials, Pods and gaps. |
| Evidence.DeliveryOrderIrrelevant | packages/afterlock/evidence.py:327-356 | Without conflicts, deliveries with the same accepted events give the same events and the same projection. |
| Evidence.RedeliveryDelivers | packages/afterlock/evidence.py:327-356 | Permuting and repeating lines delivers the same events. |
| Evidence.HistoricalAlsoControlled | packages/afterlock/evidence.py:440-545 | A historical Pod always comes with a `controls_pod` fact resting on at least the same events, is absent from the inventory and attributed to the attacker. |
| InventoryStore.Store.Observe | services/collector/internal/inventory/store.go:94-109 | Pod history is bounded and kept current; Secret versions are numbered by change. |
| InventoryStore.Store.Upsert | services/collector/internal/inventory/store.go:112-120 | Sets one object of one kind, remembers a Pod while the history has room, and changes no other object. |
| InventoryStore.Store.Delete | services/collector/internal/inventory/store.go:123-127 | Removes one object and nothing else. |
| InventoryStore.Store.ReplaceIn | services/collector/internal/inventory/store.go:168-188 | Replaces exactly a namespace's slice of a kind, leaves other slices alone and marks the slice synced. |
| Watch.QuietStretch | services/collector/internal/inventory/watch.go:291-326 | A stretch of changes outside a loop's scope does not change what the loop should hold. |
| Watch.NextWanted | services/collector/internal/inventory/watch.go:291-326 | A change in scope alters it by exactly that object, if convertible. |
| Watch.Collector.constructor | services/collector/internal/inventory/watch.go:229-234 | Loops start unlisted over an empty store, with no gap recorded. |
| Watch.TakenSettled | services/collector/internal/inventory/watch.go:229-287 | Through listing, opening and reading, a loop that is outside a stream has recorded a gap for each stream it read, so it never opens one without. |
| Watch.Collector.List | services/collector/internal/inventory/watch.go:229-257 | A list makes the loop's slice equal to the server's converted state at the listed version and leaves every other slice right. |
| Watch.Collector.Advance | services/collector/internal/inventory/watch.go:291-326 | A bookmark advances the loop's version; its slice is still the server's state there. |
| Watch.Collector.Deliver | services/collector/internal/inventory/watch.go:291-326 | An event moves the loop's slice to the server's state after it and leaves every other loop's slice right. |
| Watch.Collector.Take | services/collector/internal/inventory/watch.go:229-326 | Whatever a loop is told next, list answers, refused or opened watches, events, bookmarks, errors, closed streams or cancellation, it goes on as its control flow says and all slices, gaps and restart counts stay right. |
| Watch.Collector.Run | services/collector/internal/inventory/watch.go:206-326 | Under any interleaving of server changes and what the loops are told, every slice is the server's state at its loop's version, a gap lies between any two streams of a loop, and restarts are counted as recorded. |

## Left out

- UIDs, usernames and credential ids: datatypes instead of formatted strings, so names with separators in them are not modelled; `Text` writes a UID out.
- JSON parsing, digests and timestamp formats: inputs are taken as parsed, a manifest's digest as given with it.
- Exactness.EngineSound: needs `Case.WellFormed` and `Exactness.ClashFree`; `ClashMisses.NoClashIsExact` shows the second to be exact, for the conditions of the first concrete failures are given.
- ClashMisses.NoClashIsExact: speaks of each interval, as the end of the sequence up to it; by the end of a longer sequence the engine may have caught up.
- LiveEnvironment.LiveEnv.FromInventory: takes an inventory already keyed by UID and name; building the dictionaries from lists is not modelled.
- Engine.RunView: when the cap is passed, says only that it was; the goals and environment of an earlier interval that the code then returns are not described.
- Engine.Engine.Usable: notes which credential is undecided, not the text of the reason.
- Results.Analyze: statuses, conclusion, exhaustion and legitimate operations; exposure lists, timelines, witnesses in JSON and all explanatory text are not modelled.
- Frozen.Granting: binding keys instead of the text made of namespace and name; the exploration itself is over the value-level environment that the rows freeze.
- Explorer.ExploreView: the `unknown` output and the order in which successors are tried are not modelled.
- Acceptance.WitnessReplays: needs no input credential bound to a reserved UID, and historical UIDs apart from the inventory, since otherwise the replay holds two rows under one UID and the order of a set decides which it looks at; the text of problems found is a count.
- Orderings.CompareModes: the comparisons with the baselines need every inventory controller to own a Pod, since otherwise the baselines see no replacement before the first action.
- DeadAttacker.UnusableForGood: in a run of single steps, not for credentials bound to Pods the attacker created, whose names such a run may use again after deletion; the engine does not, and `Lifetimes.EngineTokensDie` covers all its credentials.
- Lifetimes.EngineTokensDie: needs input UIDs that no controller could still hand out and no input credential bound to a reserved UID, without which a UID of the input may come to life again.
- Rotation.RotationFreshness: for services without grace periods at the start, as the parser leaves them, and evidence that names no version above the inventory's.
- Planner.MakePlan: the verdict of a sequence is a function of the sequence and costs are reals; `candidate_actions`, `naive_plan` and the summary are not modelled.
- Planning.PlanFor: takes it that the verdicts are right as `Planning.Judge` computes them, one analysis per sequence.
- Storage.MemoryStorage.Claim: clock readings, ids and scopes are parameters, and new ids are assumed fresh; the lock and deep copies are atomic operations on values.
- `PostgresStorage`: its semantics live in a database that is not part of this model; nor are the read-only views of cases, jobs and results.
- Worker.ProcessOne: the outcome `cancelled` of the early branch does not promise that the stored job is cancelled, since the code ignores whether the acknowledgement succeeded; the heartbeat thread is what it noted and what others did between calls.
- Spool.Lifetime: the line codec is an abstract injective function without newlines; the limits are the same at each opening, since under smaller ones a record may already lie in the reserve; I/O errors that leave a partial line without a crash are not modelled.
- Bundle.WriteEvents: numbering only; the files written are not modelled.
- Bundle.Correlate: one record against the Pods observed; times are whole nanoseconds.
- Evidence.Project: evidence status, notes and details, staleness, labels, the case and profile sections and the scan for forbidden keys are not modelled; credentials are kept as the first response that shows them.
- Watch.Collector.Run: conversion is a given function per kind whose outcome is fixed per UID, backoff delays are not modelled, and the server delivers what it should; rendering of the snapshot and redaction are not modelled.
- HTTP API, authentication, command line, web frontend, lab and benchmarks: plumbing around the modelled parts.
