# Paperless-NGX operator: a verified model

The operator keeps one `PaperlessInstance` running: two generated Secrets, four claims, a database, a
cache and the workload, applied in five ordered steps by a reconciler that may crash between any two API
requests. Its promises are about whole runs: documents survive deletion under `Retain`, generated Secrets
are never rotated, a change of policy takes effect on the next pass, and `Ready` does not lie. This
project models the reconciler and an API server in Dafny and proves those promises.

`dafny verify dfyconfig.toml` checks everything.

## How it is built

| file | what it holds |
|---|---|
| `Api`, `Names`, `Resources`, `Environment`, `RandomKey`, `Conditions` | the resource, the builders and their own laws |
| `Json`, `OwnerReferences` | JSON merge patch and the two ways owner references are written |
| `Server` | objects, owner references by manager, and what Create, merge patch, forced Server-Side Apply, the status patch and garbage collection do |
| `Protocol` | one pass as a sequence of single requests; `Step` is one request, `Rest` a pass left to itself, `Cut` a pass that crashes |
| `Controller` | the reconciler as classes with methods, proved to follow the protocol request by request |
| `Steps`, `Passes`, `Reports`, `Obstacles` | what one request, one pass and its report can do, and what stops a pass in which nothing fails |
| `Manifest`, `Variables` | the objects of a pass and the variables of the container, spelled out over the fields of the spec |
| `Promises`, `Repeat`, `Convergence`, `Commute`, `Interleave` | theorems about single passes, repeated passes, failing passes and two instances |
| `World`, `WriteOnce`, `Minting`, `Deletion`, `Survival`, `Statuses`, `Reasons`, `References`, `Wakeups` | theorems about whole runs, with any number of passes interleaved and everything that can happen around them |
| `Edges` | a pass left to itself is such a run; runs from the empty world that reach the edges of the promises |

Every request takes an oracle that decides what the operator does not: whether it is refused, takes
effect without its reply arriving, or is answered from an old read; the UID of a new object; the random
bytes; the time; the text of an error. A theorem that names no condition on the oracles holds for all of
them. `Honest` says that a Secret that is there is not read as absent (the operator reads Secrets
uncached), `Fresh` that the instance is read as stored, `Clean` and `Smooth` that nothing fails.

Owner references are kept per manager, so that an apply replaces this operator's entries and no others.
The API server's rule that an object has at most one controller is part of the model.

## Where the promises have an exact edge

- A Secret that still carries a dead incarnation's reference is not freed by Retain
  (`Survival.RetainFreesSecretIff`): the ownership check compares the controller's UID only.
  `Edges.RetainFailureIsReached` gives a run in which a full pass under Retain leaves the Secret garbage.
- A Cluster of an instance that has changed to an external database is no longer touched, so its ownership
  is frozen: a pass leaves it as the policy says if and only if the database is managed or it was so already
  (`Survival.ClusterFollowsPolicyIff`). A Cluster owned under an earlier Delete is therefore collected with
  the instance although the policy in force is Retain (`Survival.FrozenClusterIsCollected`), and
  `Edges.ClusterFailureIsReached` gives a run that loses it. The source's README.md:42-48 promises that a
  change of policy takes effect on the next reconcile.
- The status patch goes by name and leaves out what the pass has not changed, so a pass that is under way
  while the instance is recreated keeps the order of generations exactly when its patch fits the new
  incarnation (`Statuses.PatchKeepsOrderIff`, `Statuses.PatchOnNewIncarnationIff`). It does not when the
  old generation is ahead (`Edges.OrderLostAhead`), nor when the old incarnation had stored that
  generation already and the conditions have changed (`Edges.OrderLostBehind`). A stale read of the same
  incarnation can lose it too (`Edges.OrderLostToStaleRead`); over whole runs the order is kept exactly as
  long as every patch fits (`Statuses.OrderKeptIff`).
- A pass that takes an instance for gone because the cache is behind ends in silence; it is the only one
  (`Wakeups.NoLostWakeUpIff`).
- A managed cache is refused with an explicit empty `url` although nothing would be ignored
  (`Variables.CacheRuleExact`).
- An instance named like another one's Valkey shares Deployment and Service with it
  (`Commute.FootprintsCollideIff`).
- The merge patch on a Secret replaces all owner references, other managers' included, while an apply
  keeps them: a pass leaves others' references on a Secret if and only if there are none or it finds the
  Secret aligned with the policy (`Survival.PatchKeepsOthersIff`; `Edges.OthersLossIsReached` gives a run
  that drops one). `Promises.PolicyTakesEffect` promises the latter for claims and Clusters only.
- A Secret the user supplies is read and never written (`WriteOnce.SuppliedSecretsUntouched`), unless it
  bears one of the instance's own derived names: then its ownership follows the policy
  (`WriteOnce.SuppliedSecretOwnedIff`).
- The generated admin Secret takes the user name from the spec as it is (internal/resources/secret.go:128),
  the container falls back to `admin` (internal/resources/workload.go:132-135).
- The doc comment on status conditions (api/v1alpha1/paperlessinstance_types.go:363-371) speaks of merging
  entries; the operator's patch replaces the list as a whole, and the model follows the patch. The comment
  on `accessModes` (line 87) says that the storage class decides; the builder's default is
  `ReadWriteOnce`, and so is the model's.

## Model

| member | source | states |
|---|---|---|
| Survival.PolicyDecidesSurvival | internal/controller/deletion_policy.go:22-112 | After any history, with other instances' passes under way, once passes that read `deletionPolicy: Delete`, or passes that read anything else or nothing, have got past the database, deleting the instance and collecting garbage leaves none of the objects they govern (four claims, two Secrets, and the Cluster of a managed database), or keeps each of them untouched, whatever is interleaved; only of a Secret that is to be kept is it asked that no other incarnation's reference is on it when those passes begin |
| Survival.RetainedOutlives | internal/controller/deletion_policy.go:22-112 | From then on an object so governed is never collected, with passes still under way after the deletion and through any number of new incarnations, as long as none of them reads Delete |
| Survival.ReproducibleObjectsGo | internal/controller/paperlessinstance_controller.go:298-347 | In every run a Deployment, Service or cache claim whose owner references others leave alone goes with the instance under either policy, unless another living instance has an object of the same name |
| Survival.RetainedIsAdopted | internal/controller/deletion_policy.go:22-112 | After any run that ends in Retain, then deletion, garbage collection, recreation and whatever else, then passes of the new incarnation under either policy: an object both govern is the original one, a Secret with its original data, controlled by the new incarnation exactly under Delete and by nobody else |
| Survival.RetainFreesSecretIff | internal/controller/deletion_policy.go:79-118 | A pass under Retain leaves an existing Secret without owners if and only if it had none or this very incarnation controlled it |
| Survival.DeadIncarnationsSecretIsCollected | internal/controller/deletion_policy.go:80-84 | The failing family: a Secret still controlled by a dead incarnation is garbage however far a pass under Retain goes |
| Edges.RetainFailureIsReached | internal/controller/deletion_policy.go:80-84 | For every spec with a generated key and a managed database there is a run from the empty world that reaches it: create under Delete, pass, delete, recreate under Retain, full pass |
| Survival.ClusterFollowsPolicyIff | internal/controller/paperlessinstance_controller.go:213-218 | A pass leaves a Cluster it finds owned as the policy says if and only if the database is managed or the Cluster was owned so already |
| Survival.FrozenClusterIsCollected | internal/controller/paperlessinstance_controller.go:213-218 | The failing family: the Cluster of an instance that has moved to an external database is garbage after deletion under Retain, however far passes go |
| Edges.ClusterFailureIsReached | internal/controller/paperlessinstance_controller.go:213-218 | For every spec with a managed database and every external one there is a run that reaches it: create under Delete, pass, edit to Retain and the external database, full pass, delete |
| Survival.PatchKeepsOthersIff | internal/controller/deletion_policy.go:79-112 | A pass leaves others' owner references on a Secret if and only if there are none or the Secret is aligned with the policy; otherwise exactly its own reference or none is left |
| Edges.OthersLossIsReached | internal/controller/deletion_policy.go:79-112 | For every spec with a managed database and Delete, and a name with room for the suffixes, a run in which a Secret under a derived name loses the reference to an owner that is still there |
| Edges.PassIsRun | internal/controller/paperlessinstance_controller.go:65-143 | A pass left to itself is a run of the world, so the theorems about single passes speak of runs |
| Survival.OwnedGoes | internal/controller/deletion_policy.go:79-112 | A governed object the operator owns is collected once its instance is gone |
| Survival.SweepKeeps | README.md:42-48 | Garbage collection changes no object and removes none that has no owner |
| Deletion.ExecStateful | internal/controller/deletion_policy.go:22-112 | Invariant of every run, for each governed object: there is nothing on it but at most one controller reference to some incarnation of its instance |
| Deletion.ExecSettled | internal/controller/deletion_policy.go:22-112 | Under one policy, an object any interleaved pass has acknowledged stays owned exactly as the policy says, a Secret under Retain provided no other incarnation's reference was on it |
| Deletion.StatefulTarget | internal/resources/names.go:13-55 | Only passes of the instance itself write to its governed objects |
| Survival.ExecReproducible | internal/controller/paperlessinstance_controller.go:338-347 | Invariant of every run: a reproducible object whose owner references others leave alone is controlled by an incarnation of an instance it belongs to |
| WriteOnce.SecretDataNeverChanges | internal/controller/paperlessinstance_controller.go:157-197 | In every interleaving of any number of reconcilers with faults, stale reads, crashes and edits, a Secret that is still the same object has the same data |
| Minting.SecretsComeFromCreate | internal/resources/secret.go:32-131 | After any run a Secret comes into being only by the Create of a value that the last request of the same process before it has read off its random bytes, character by character; it holds that value, for the account with the name the spec gives, and nothing else |
| Minting.GeneratedValuesAreMinted | internal/resources/secret.go:32-131 | In every run whatever stands at a derived Secret name carries, under the name the Deployment asks for, the value that one request of the run, for a spec that leaves it to the operator, has read off its first 50 or 32 random bytes, unless somebody else wrote another one there |
| Minting.UniformlyMinted | internal/resources/secret.go:32-116 | A request that finds no Secret goes on to create value t for exactly those strings of 50 or 32 random bytes that are its preimages: 4^n of them for each t over the alphabet, none for any other text |
| WriteOnce.SuppliedSecretsUntouched | internal/resources/secret.go:66-72 | In every run a Secret under no derived name is left as it is by the operator |
| WriteOnce.SuppliedSecretOwnedIff | internal/resources/secret.go:66-72 | A supplied Secret is touched exactly when it bears one of the instance's own derived names, and then it is controlled by the instance exactly under Delete |
| WriteOnce.CreatesBalanceDeletions | internal/controller/paperlessinstance_controller.go:161-197 | Conservation over every run: creations and deletions of a Secret differ by whether it is there |
| WriteOnce.AtMostOneCreate | internal/controller/paperlessinstance_controller.go:190-196 | Without a deletion at most one Create ever succeeds, and none if the Secret was there |
| Steps.PlanKeysDistinct | internal/controller/paperlessinstance_controller.go:88-132 | No two items of a pass write the same object, and none writes credentials already read |
| Manifest.PlanSpelled | internal/controller/paperlessinstance_controller.go:88-336 | A pass comes to exactly these objects, by kind and name, in this order |
| Manifest.ClaimsAskForVolumes | internal/resources/storage.go:20-60 | Once a pass has acknowledged its storage step, each of the four claims has its own volume's size, access modes and storage class, and the defaults of 5, 20, 5 and 10 GiB and ReadWriteOnce where nothing is given |
| Manifest.ClusterAsAsked | internal/resources/database.go:84-136 | Past a managed database the Cluster has the instances, storage and database of the spec, and CloudNativePG is installed |
| Manifest.CacheAsAsked | internal/resources/cache.go:31-123 | Past the cache step Valkey keeps its data on the claim of its own name, of 1 GiB without a storage class, and its Service selects its pods |
| Manifest.WorkloadAsAsked | internal/resources/workload.go:204-307 | After a full pass the Deployment has the environment, the four volumes and their mounts, and the Service selects its pods |
| Manifest.ReferencesSpelled | internal/controller/deletion_policy.go:22-72 | The owner reference on each acknowledged applied object, written out: on claims and Cluster exactly under Delete, on the rest in any case |
| Convergence.FaultsDoNotMatter | internal/controller/paperlessinstance_controller.go:88-132 | Any series of failing or crashing passes followed by a clean one leaves the objects a single clean pass leaves, and keeps what was stored on the way |
| Convergence.SmoothPassCompletes | internal/controller/paperlessinstance_controller.go:88-132 | From a state with nothing in its way a pass in which nothing fails acknowledges every item |
| Convergence.StoredValueStays | internal/controller/paperlessinstance_controller.go:190-196 | What the first successful Create stored is there after all later attempts |
| Convergence.AfterBetween | internal/controller/paperlessinstance_controller.go:161-373 | Through any series of attempts each object is either as it was or as asked, never in between |
| Promises.PolicyTakesEffect | internal/controller/deletion_policy.go:22-118 | From any earlier ownership, once a governed object is acknowledged the instance controls it exactly if `deletionPolicy` is Delete, so not when it is unset (or if somebody else says so), and other managers' references on claims and Clusters are kept |
| Promises.PassWritesPrefix | internal/controller/paperlessinstance_controller.go:75-132 | Under any faults a pass writes to a prefix of its objects, leaves the acknowledged ones as asked, and Ready is never left at Reconciling but names the step of the first one that failed |
| Reasons.ReadyNamesTheStep | internal/controller/paperlessinstance_controller.go:85-336 | In every run the status a pass stores gives for Ready the reason of the step whose object, by its key, the last request before was about: SecretsNotReady at the two Secrets, StorageNotReady at the four claims, DatabaseNotReady at the credentials or the Cluster, CacheNotReady at the three Valkey objects, WorkloadApplyFailed at the Service and the Deployment; one past the database says which it is, one that waits for it comes back after 30 seconds |
| Wakeups.NoLostWakeUpIff | internal/controller/paperlessinstance_controller.go:65-132 | A pass over an instance that is there finds it ready or is followed by another (error, requeue, or the watch on a Deployment it controls) if and only if its first read does not miss the instance in the cache |
| Wakeups.NoLostWakeUp | internal/controller/paperlessinstance_controller.go:38-132 | In every run, each process that has ended returned an error, asked to be requeued, stored Ready, left the Deployment under its instance's control by a request of the run, or found no instance |
| References.ReferencesEnsuredFirst | internal/resources/workload.go:101-235 | In every run, when any process comes to apply the Deployment, every Secret with its key, every claim and the cache Service it refers to is in place, except where the user wrote the reference; only the key itself is not promised of a generated Secret from which others have dropped it; the container is given the managed cache's address exactly when the pass applies the Service |
| References.CacheServiceIff | internal/resources/cache.go:92-112 | A pass applies the Valkey Service exactly when the cache is managed |
| Variables.CacheRuleExact | api/v1alpha1/paperlessinstance_types.go:201-222 | An external cache is admitted exactly when the container is told where it is; a managed one, also when `managed` is unset, exactly when no setting of the user's would be ignored and no empty url is written out |
| Obstacles.UnblockedStep | internal/controller/paperlessinstance_controller.go:161-373 | Where no database is missing, the name is valid and nobody else controls the object, a request that does not fail takes the pass on, unless the random source fails it |
| Obstacles.BlockedStep | internal/controller/paperlessinstance_controller.go:88-132 | Where one of these is in the way, the pass writes nothing and halts there, saying which |
| Repeat.RepeatChangesNoObject | internal/controller/paperlessinstance_controller.go:157-197 | After a pass that nothing has failed, whether it went all the way or stopped at a missing database, an invalid name or somebody else's object, another one for the same spec changes no object and no Secret, even if its requests fail |
| Repeat.RepeatAsksForNoSecretWrite | internal/controller/deletion_policy.go:80-84 | Nor does it ask for any write to a Secret, at whichever request it is looked at |
| Repeat.SecondPassIsNoop | internal/controller/paperlessinstance_controller.go:65-143 | After such a pass a clean second one over the unchanged world changes Ready at most: its transition time if it was true, the server's text if it reported a refusal; while the operator waits for a database it changes nothing at all |
| Repeat.RepeatKeepsStatus | internal/controller/conditions.go:22-30 | A clean pass over an instance at rest, finished or stopped, restamps a true Ready or restates a refusal; any other status is left bit for bit |
| Repeat.VerdictIsTrueAndStored | internal/controller/paperlessinstance_controller.go:317-336 | A full pass finds the instance ready exactly when its Deployment has a ready replica, and a pass without error has stored its verdict |
| Statuses.ReadyNeedsDatabase | internal/controller/paperlessinstance_controller.go:65-143 | In every run, with arbitrarily stale reads, a stored status has one condition per type, and Ready=True comes with DatabaseReady=True of the same generation |
| Statuses.StatusKeepsOrder | internal/controller/paperlessinstance_controller.go:137-143 | In every run with fresh reads and one pass at a time, conditions are no newer than the status, the status no newer than the instance, and Ready exactly as new as the status; across a recreation in mid-pass as long as the patch fits |
| Statuses.PatchKeepsOrderIff | internal/controller/paperlessinstance_controller.go:134-143 | A status patch keeps the order if and only if it fits the instance it lands on |
| Statuses.PatchOnNewIncarnationIff | internal/controller/paperlessinstance_controller.go:134-143 | On a new incarnation: if the generation read was stored already, exactly when the conditions are unchanged, else exactly when the generation is not ahead |
| Statuses.OrderKeptIff | internal/controller/paperlessinstance_controller.go:134-143 | With any number of passes at once, stale reads and recreations, the stored status is in order throughout a run if and only if each status patch of the run fits the instance it lands on |
| Edges.OrderLostToStaleRead | internal/controller/paperlessinstance_controller.go:134-143 | A run with one incarnation and one pass at a time that loses the order to a stale read of the instance |
| Edges.OrderLostAhead | internal/controller/paperlessinstance_controller.go:134-143 | A run from the empty world that loses the order because the old generation is ahead |
| Edges.OrderLostBehind | internal/controller/paperlessinstance_controller.go:134-143 | A run that loses it with equal generations, because the patch leaves the generation out |
| Statuses.DeploymentsNeedDatabase | internal/controller/paperlessinstance_controller.go:109-132 | In every run a Deployment that others at most edited bears the name of an instance, or of its cache, for which some request of the run left the credentials with both keys, or the Cluster as built, in place |
| Statuses.FoundIsThere | internal/controller/paperlessinstance_controller.go:213-277 | A pass gets past its database step only by a request that finds the database there |
| Reports.GoesReports | internal/controller/paperlessinstance_controller.go:85-132 | Every outcome of a request keeps the report in order: Ready undecided on the way, true only at the end and with a usable database |
| Commute.FootprintsCollideIff | internal/resources/names.go:13-55 | Two instances write to a common object exactly when one bears the name of the other's managed cache |
| Commute.StatefulObjectsDisjoint | internal/resources/names.go:13-55 | Claims, Secrets and Clusters of two instances are never shared |
| Commute.IndependentIff | internal/controller/paperlessinstance_controller.go:220-247 | Passes of two instances are independent exactly when neither takes the other's cache name nor reads the other's generated Secret as credentials |
| Commute.PassesCommute | internal/controller/paperlessinstance_controller.go:65-132 | Passes of independent instances commute: same state and same outcomes in either order |
| Interleave.PassesInterleave | internal/controller/paperlessinstance_controller.go:65-132 | Interleaved request by request in any order, under any faults, they end in the same state and each as it would alone |
| Commute.ServiceRoutesToOwnPods | internal/resources/workload.go:289-307 | A Service selects the pods of its own instance's Deployment and of no other, in any namespace |
| Passes.CutHolds | internal/controller/paperlessinstance_controller.go:88-132 | Wherever a pass is cut off, each acknowledged item is as asked |
| Passes.CutChangedOnly | internal/controller/paperlessinstance_controller.go:88-132 | A pass changes nothing past the item it has got to |
| Controller.Reconciler.Reconcile | internal/controller/paperlessinstance_controller.go:65-83 | The method ends with the server state, the number of requests and the result of the protocol run to its end |
| Controller.Reconciler.ReconcileInstance | internal/controller/paperlessinstance_controller.go:88-132 | The five steps in order with early exits follow the protocol up to the status patch |
| Controller.Reconciler.ReconcileSecrets | internal/controller/paperlessinstance_controller.go:147-155 | Secret key first, then admin Secret, stopping at the first error |
| Controller.Reconciler.EnsureGeneratedSecret | internal/controller/paperlessinstance_controller.go:161-197 | Get, then create, align or nothing, as the protocol goes |
| Controller.Reconciler.ReconcileSecretOwnership | internal/controller/deletion_policy.go:79-112 | No request when ownership matches, otherwise a patch whose body is the owner references alone |
| Controller.Reconciler.IsControlledBy | internal/controller/deletion_policy.go:114-118 | Finds whether the first controller reference is to this UID |
| Controller.Reconciler.Apply | internal/controller/paperlessinstance_controller.go:352-373 | Applies the encoded object with the owner references spliced in, an empty list included |
| Controller.Reconciler.ApplyOwned | internal/controller/paperlessinstance_controller.go:342-347 | Applies with the controller reference whatever the policy |
| Controller.Reconciler.ApplyStateful | internal/controller/deletion_policy.go:22-29 | Applies with the controller reference under Delete and with none under Retain |
| Controller.Reconciler.ReconcileStorage | internal/controller/paperlessinstance_controller.go:201-208 | The loop over the four claims follows the protocol item by item |
| Controller.Reconciler.ReconcileExternalDatabase | internal/controller/paperlessinstance_controller.go:223-249 | Absent, unreadable, incomplete and good credentials each lead where the protocol says |
| Controller.Reconciler.FirstMissingKey | internal/controller/paperlessinstance_controller.go:237-244 | The loop finds the first required key that is missing |
| Controller.Reconciler.ReconcileManagedDatabase | internal/controller/paperlessinstance_controller.go:254-294 | Applies the Cluster only after the definition is found and the name is valid |
| Controller.Reconciler.ReconcileCache | internal/controller/paperlessinstance_controller.go:298-315 | Three applies in order when managed, nothing otherwise |
| Controller.Reconciler.ReconcileWorkload | internal/controller/paperlessinstance_controller.go:320-336 | Service, then Deployment, then Ready from the returned status |
| Controller.Reconciler.PatchStatus | internal/controller/paperlessinstance_controller.go:137-143 | Stores the status as the merge patch against what was read |
| Controller.Live.SetCondition | internal/controller/conditions.go:22-30 | Upserts one condition in place, stamped with the generation read |
| Conditions.UpsertGet | internal/controller/conditions.go:22-30 | The upsert sets its own type, keeps the transition time unless the status changes, and leaves the other type alone |
| Variables.DatabaseVariables | internal/resources/database.go:50-82 | Where the user writes no such variable the container gets engine, host, port numeral and database name of the external server or of the Cluster's service, the user from the key `username` and the password from `password` of the credentials Secret |
| Variables.AccountVariables | internal/resources/workload.go:124-148 | The account's name or `admin`, its mail if given and its password's Secret and key; none of them when `enabled` is false, all of them when it is unset |
| Variables.SecretKeyVariable | internal/resources/workload.go:101-108 | Django's key comes from the Secret the user supplies, or from the generated one under its own key |
| Variables.CacheVariable | internal/resources/workload.go:110-122 | The managed Valkey's address, also when `managed` is unset, else the user's reference, else the user's url |
| Variables.AddressVariables | internal/resources/workload.go:186-191 | The instance's address as url and trusted origin where it is given, neither where it is not |
| Variables.HostsVariable | internal/resources/workload.go:72-99 | The Service's three names, the two of a forwarded port and the host of the address are allowed |
| Variables.TimeZoneVariable | internal/resources/workload.go:170-184 | The time zone given, or UTC |
| Variables.LanguageVariable | internal/resources/workload.go:175-184 | The languages with a plus between any two, or eng |
| Environment.DedupeEnv | internal/resources/workload.go:153-165 | The index-map loop computes, for every list, each name's last entry in order of first appearance |
| Environment.LastWinsKeeps | internal/resources/workload.go:150-165 | Deduplicating keeps the names, their order and every last entry |
| Environment.FirstNamesDistinct | internal/resources/workload.go:150-152 | No name occurs twice |
| Environment.LastWinsIdempotent | internal/resources/workload.go:153-165 | Deduplicating twice is deduplicating once |
| Environment.LastWinsConcat | internal/resources/workload.go:153-165 | Either half may be deduplicated first |
| Environment.UserEntriesWin | internal/resources/workload.go:167-200 | In the container's environment the user's last entry wins for every name, and names are distinct |
| Environment.ReferencesAccounted | internal/resources/workload.go:101-200 | Each variable taken from a Secret is the user's own entry or one of five: secret key, admin password, cache url, and the database's user and password, each with its own Secret and key |
| Environment.BuildWorkloadEnv | internal/resources/workload.go:170-200 | The appending method builds the specified environment |
| Environment.BuildAdminEnv | internal/resources/workload.go:126-148 | The account's variables, or none when disabled |
| OwnerReferences.OwnerPatchFrame | internal/controller/deletion_policy.go:79-112 | Merge-patching any JSON tree with the owner patch (section 2 of RFC 7396) yields exactly the given references and leaves every other path equal |
| OwnerReferences.SplicingIsMergePatching | internal/controller/deletion_policy.go:49-72 | Splicing into an apply body writes exactly what the merge patch would |
| OwnerReferences.SetExplicitOwnerReferences | internal/controller/deletion_policy.go:53-72 | Fails exactly on non-objects; otherwise the references are stated, even when empty |
| OwnerReferences.ExplicitLastWins | internal/controller/deletion_policy.go:53-72 | The last splice decides; repeating one changes nothing |
| OwnerReferences.ReadBack | internal/controller/deletion_policy.go:31-47 | Reading the stored list back gives the references in order |
| OwnerReferences.DecodeEncode | internal/controller/deletion_policy.go:33-47 | Encoding a reference loses nothing, unset flags included |
| OwnerReferences.OwnerReferencesJson | internal/controller/deletion_policy.go:33-47 | The growing list holds each reference's encoding in order |
| OwnerReferences.BodiesStateRefs | internal/controller/deletion_policy.go:49-112 | Both kinds of request body state exactly the references they were made from |
| RandomKey.UniformKeys | internal/resources/secret.go:17-43 | Exactly uniform: each key over the alphabet has 4^n byte strings behind it and any other text none |
| RandomKey.PreimagesExact | internal/resources/secret.go:38-42 | The counted byte strings are exactly those that become the key |
| RandomKey.Generate | internal/resources/secret.go:32-43 | The loop turns the first n random bytes into the key, or reports a failed read |
| RandomKey.AlphabetSpelled | internal/resources/secret.go:17-20 | Capitals, small letters, digits, hyphen and underscore in this order, each once |
| Names.DerivedNameValidIffShort | internal/resources/names.go:10-15 | For a valid instance name a derived name is valid exactly when it is at most 253 characters long |
| Names.ValidNameIff | internal/resources/secret.go:59-64 | The name check, label by label, is the API server's, character by character |
| Names.NamesSpelled | internal/resources/names.go:10-55 | The eight derived names |
| Names.DerivedNameInjective | internal/resources/names.go:13-55 | Instance name and part can be read off a derived name |
| Names.ExtendLastLabel | internal/resources/secret.go:59-64 | A hyphen and a label keep a DNS-1123 subdomain well formed |
| Resources.MintSecret | internal/resources/secret.go:73-131 | Nothing for a supplied or disabled value, an error for an invalid name or failed read, otherwise a fresh value |
| Resources.ClusterServesWorkload | internal/resources/database.go:33-136 | The Cluster is bootstrapped with the database `paperless`, and the container is told to use that one at the Cluster's own service |
| Resources.ClusterIsSized | internal/resources/database.go:91-136 | As many instances as asked for and at least one, the storage asked for or 10 GiB, and the storage class exactly when given |
| Resources.PaperlessVolumes | internal/resources/workload.go:215-227 | One volume per claim, in order |
| Resources.MountsBindClaims | internal/resources/workload.go:204-236 | The four directories of the container are each mounted from the claim of that name, and nothing else is mounted |
| World.ExecBooked | internal/controller/paperlessinstance_controller.go:88-132 | Bookkeeping of every run: no two objects or incarnations share a UID, and each pass works for an incarnation of its instance |

## Left out

- Promises.PolicyTakesEffect: assumes that Secrets are not read as absent from a stale cache, which holds because the Secret cache is disabled; with such a read a pass for a user-supplied key passes over an old generated Secret without aligning it
- Survival.PolicyDecidesSurvival: whoever else writes to a governed object leaves its owner references alone or, except while the policy is Delete, brings in an object without any; the stretch of one policy concerns one incarnation and begins when none of the instance's own passes is under way; a Secret under Retain carries no other incarnation's reference at its start, because without that the promise is false of it (see Edges.RetainFailureIsReached), while nothing of the kind is asked of the claims and the Cluster; of a Cluster it speaks only for a managed database, because otherwise it is false (see Edges.ClusterFailureIsReached)
- Survival.RetainedIsAdopted: nobody removes the object by hand, and the new instance is not itself deleted and its objects collected before its pass is through; what is said of a Cluster needs a managed database on both sides
- Statuses.StatusKeepsOrder: one pass at a time for one instance, which is what the work queue gives, and fresh reads, which the cache need not give (see Statuses.OrderKeptIff for every run)
- References.ReferencesEnsuredFirst: nobody takes away what that very pass has already ensured, nor either key of the credentials it has found
- Wakeups.NoLostWakeUp: what becomes of the Deployment after the pass, and the watch machinery that turns its changes into passes
- Controller.Reconciler.ReconcileInstance: the five steps are one method per step, each handing on to the next, where the source has one function
- Controller.Reconciler.Apply: the library's encoding of an object's own fields is an arbitrary function, and it does not fail, nor does looking up the object's kind; such a failure would leave the server as a refused request does
- Admission by the API server beyond name collisions and the one-controller rule (label lengths, the stricter rule for Service names, immutable claim fields): a refused request stands for any of them
- Server-Side Apply on fields other than owner references: an apply replaces the operator's whole description of the object
- Error texts and human-readable messages: a message is its kind and arguments, and the text of a failed request is arbitrary
- Quantities, ports, probes, image references, resource requests, pull secrets, envFrom and the two constant labels: constants and pass-through fields
- URL parsing: the host name found in spec.url, or none, is part of the spec
- Finalizers and foreground deletion: the operator uses neither; deletion is immediate and background collection follows
- CloudNativePG's own controller, including the Secret and Service it generates beside the Cluster
- Process wiring, leader election, the work queue, metrics, the Helm chart and the CRD manifest
- Panics: setExplicitOwnerReferences is only given encodings of objects, never the JSON null
