# The RabbitMQ cluster operator: a verified model

This project models the reconcile loop of the RabbitMQ cluster operator and
proves what it keeps over every run. Check it with

    dafny verify dfyconfig.toml

## The system

The operator reads a custom resource and brings its children into line with it:
services, secrets, role objects, two ConfigMaps and a StatefulSet. A pass may
stop at any call; what is to be remembered between passes is kept in annotations.

| module | what it is |
|---|---|
| `ApiServer` | The store: resource versions, uids, a clock, an audit log. Before each call others act (users edit the spec, the StatefulSet controller claims volumes and reports status, the garbage collector reaps); the call is then delivered, delivered with its reply lost, or refused. When no more turns are left the operator has crashed. |
| `Scaling`, `Controllers` | The operator as functions of the store, call by call. |
| `Client`, `Scaler`, `Reconciler` | The operator as classes with its loops and early returns, each method proved to have the effect of the function of that name. |
| `Invariants`, `Calls` | The run invariant, the growth relation, and what each call keeps. |
| `Expansion`, `Convergence`, `LateClaims` | Expanding claims: safety under any failure, progress, exactly when a call succeeds, and exactly when a nil result can be trusted. |
| `Passes`, `Children`, `Restarts`, `Commands`, `Runs` | What the parts of a pass keep and achieve, whole passes, and theorems over every run. |
| `Paused` | A paused resource: passes and runs that leave everything to the others. |
| `Endings`, `Failures` | How an undisturbed pass ends and what its status tells; and that no failed call is passed over. |
| `StsWrites`, `Creation` | Which writes to the StatefulSet are made, by the calls to come; a new StatefulSet gets its marker and its feature flags. |
| `OnBehalf` | Every deletion, expansion and creation answers to the spec that its own pass read. |
| `Contents` | What the two ConfigMaps say, and which edits show in them. |
| `Quiescence`, `LostMarkers` | After a completed pass: no self-triggering, restarts and plugin commands die out; and when a marker is lost. |
| `StaleReads` | The StatefulSet's step with the reads of a cached client. |
| `Settling`, `Recovery`, `Applying` | What passes do when nothing goes wrong: the fixed point, and how it is reached. |
| `Deletion`, `DeletionRetries` | Deletion with a store of its own, in which every read may show any past state and names are reused; and when its retries get there. |
| `Rfc3339`, `Sorting`, `Ports`, `Plugins`, `ConfigMaps`, `Conditions`, `Metadata` | The timestamps and the loops that build children. |
| `Text`, `Spec` | Texts, and the custom resource. |

The audit log is the model's only addition. The server appends what it saw
when it acted: what it deleted, created and resized, every command run, and
every marker it finds removed or set by comparing what is stored with what is
written. Three kinds of entry come from the operator's side: that a pass began on a
spec, that a call of Scale is done, and the copies on which a pass goes on to run
commands. A write also says whether it sets a marker anew, since the server
cannot tell a marker written again with its old value from one left alone.
`Invariants.GoodLog` says what each event means given the log before it; `Runs`
and `Quiescence` turn this into statements about every run.

## Findings

- `sortEnvVar` does not put its three variables in front for every input. The
  three failing arrangements are `Sorting.Cycles`; the operator's own list is
  not one of them.
- Scale can return nil with a claim still too small: one that the StatefulSet
  controller makes after the claim was looked for. `LateClaims.NilMeansNoneLeft`
  has the states in which that can happen, both ways.
- A StatefulSet that is reaped between the read and the delete of `deleteSts`
  makes the call fail, since not-found is an error there; the next call
  succeeds (`Convergence.ScaleExact`).
- The resource is let go even if its StatefulSet is not deleted: undisturbed,
  exactly when another owns it (`Deletion.ResourceGoesRegardless`).
- A second restart for one configuration change happens: a restart in the
  marker's own second does not count as later (`Restarts.SecondRestart`).
  `Restarts.RestartsExactly` has the condition of any restart.
- A ConfigMap can be changed without its marker, and then the marker is lost for
  good: when the reply to the update is lost, or the annotation after it does not
  land. `LostMarkers.MarkerMissing` has the condition on the calls to come.
- A StatefulSet can be left without its creation marker in the same ways, and then
  its feature flags are not enabled by that marker; `StsWrites.CreationExact` has
  the condition, and says that the pass that created it ends with an error.
- A pod touched between listing and label costs an attempt; the StatefulSet is
  left behind when that happens in all of them (`DeletionRetries.RetryingGetsThere`).
- With reads from the cache the guard against scaling down can be passed by a
  StatefulSet with too many replicas (`StaleReads.StaleGuardLowers`);
  `StaleReads.LoweredExactly` has the condition.

## Model

| member | source | states |
|---|---|---|
| Runs.ClaimsNeverShrink | deployment/cloud/k8/data-services/rabbitmq/install_commericial/cluster-operator/internal/scaling/scaling.go:35-192 | Between any two points of any run, with spec edits, failed calls and crashes anywhere, no claim's storage request decreases, also while the StatefulSet is gone and the shrink guard does not apply |
| OnBehalf.ExpansionWindow | deployment/cloud/k8/data-services/rabbitmq/install_commericial/cluster-operator/internal/scaling/scaling.go:42-168 | In every run each claim write happens while no StatefulSet exists and raises the request; a deletion the operator asks for is on behalf of a claim of one of the replicas, strictly below the size, that the spec its own pass read asks for; a StatefulSet is created only directly after a Scale call for as many replicas was done, and every claim of these replicas present at that call's listing is then at least as large as its own template asks for |
| OnBehalf.ActsForItsSpec | deployment/cloud/k8/data-services/rabbitmq/install_commericial/cluster-operator/controllers/rabbitmqcluster_controller.go:120-224 | Over every run each deletion of the StatefulSet, each done call of Scale and each creation carries the replicas and the size, and the creation the template, of the spec read by the last pass begun before it |
| Runs.ReplicasNeverDecrease | deployment/cloud/k8/data-services/rabbitmq/install_commericial/cluster-operator/controllers/reconcile_scale_down.go:17-34 | Over every run in which reads show the store the replica count of one StatefulSet incarnation never decreases; StaleReads has reads from the cache |
| StaleReads.LoweredExactly | deployment/cloud/k8/data-services/rabbitmq/install_commericial/cluster-operator/controllers/rabbitmqcluster_controller.go:172-221 | With guard and update reading any earlier states of the StatefulSet, this step lowers its replicas if and only if the guard saw no more than wanted, the expansion was done, and a write with the current version got through from a copy that has more; otherwise the store only grows, and in any case the log stays good and no claim shrinks |
| StaleReads.CachedRunKeeps | deployment/cloud/k8/data-services/rabbitmq/install_commericial/cluster-operator/controllers/rabbitmqcluster_controller.go:120-242 | Over every run of passes, outside steps and StatefulSet steps with such reads the run invariant is kept, and with it what the log tells of commands, restarts and expansions; no claim shrinks; and replicas are lowered only by a step that slips through the guard |
| StaleReads.OneVersionKeeps | deployment/cloud/k8/data-services/rabbitmq/install_commericial/cluster-operator/controllers/rabbitmqcluster_controller.go:172-221 | While guard and update see one version nothing is lowered, however old it is |
| StaleReads.StaleGuardLowers | deployment/cloud/k8/data-services/rabbitmq/install_commericial/cluster-operator/controllers/reconcile_scale_down.go:17-34 | From every state with more replicas than wanted and nothing to expand, a guard shown an older StatefulSet and an update shown the current one lower the replicas to those wanted; with a fresh guard the same step does not |
| Runs.CommandsRanFirst | deployment/cloud/k8/data-services/rabbitmq/install_commericial/cluster-operator/controllers/reconcile_cli.go:18-117 | However a plugins, creation or rebalance marker came to be removed by a write of the operator - the server notices each removal - that was directly after its command succeeded on pods 0 to n-1 (for the plugins n is the replica count); the look before the commands found that very marker, in that very version of its object, and all replicas ready on one revision |
| Runs.CommandsWereDue | deployment/cloud/k8/data-services/rabbitmq/install_commericial/cluster-operator/controllers/reconcile_cli.go:24-65 | Every command run follows a look that found its marker pending and all replicas ready on one revision, with nothing but commands and removals in between |
| Runs.CreationMarkerStays | deployment/cloud/k8/data-services/rabbitmq/install_commericial/cluster-operator/controllers/reconcile_cli.go:68-81 | The creation marker of a StatefulSet that still exists goes away only by such a recorded removal, whatever else the operator writes |
| Runs.RestartsAreBounded | deployment/cloud/k8/data-services/rabbitmq/install_commericial/cluster-operator/controllers/reconcile_rabbitmq_configurations.go:100-116 | For one StatefulSet and one configuration marker every restart but the last bears the marker's own second, so at most two different restart times are written |
| Runs.ObservedOnlyWhenAchieved | deployment/cloud/k8/data-services/rabbitmq/install_commericial/cluster-operator/controllers/rabbitmqcluster_controller.go:120-242 | observedGeneration changes only by a completed pass, to the generation that pass read; then every child was applied from that spec, the StatefulSet read has the wanted replicas, template and storage capacity, all replicas ready on one revision, nothing is pending in the copies held, and no marked configuration change lacks a restart; it never exceeds the generation |
| Quiescence.NoSelfTriggering | deployment/cloud/k8/data-services/rabbitmq/install_commericial/cluster-operator/controllers/reconcile_rabbitmq_configurations.go:37-67 | After a completed pass no pass of any later run that reads the same spec, failing or not, writes a configuration or plugins marker, and both ConfigMaps' data and the generated children stay as they are |
| Quiescence.RunStaysSettled | deployment/cloud/k8/data-services/rabbitmq/install_commericial/cluster-operator/controllers/rabbitmqcluster_controller.go:165-224 | The same from any store whose children are settled for that spec, and they stay settled |
| Quiescence.MapNeverMarked | deployment/cloud/k8/data-services/rabbitmq/install_commericial/cluster-operator/controllers/reconcile_rabbitmq_configurations.go:37-67 | A ConfigMap settled for the spec that passes read is neither written nor marked over any run, whatever becomes of the other children |
| Quiescence.RestartsDieOut | deployment/cloud/k8/data-services/rabbitmq/install_commericial/cluster-operator/controllers/reconcile_rabbitmq_configurations.go:81-129 | After a completed pass, over any such run, all further restarts of the StatefulSet it saw but the last repeat a time written before: at most one new restart time |
| Quiescence.PluginCommandsEnd | deployment/cloud/k8/data-services/rabbitmq/install_commericial/cluster-operator/controllers/reconcile_cli.go:49-53 | After a completed pass, over any such run in which nobody else rewrites the plugins marker, no pass sets plugins |
| LostMarkers.MarkerMissing | deployment/cloud/k8/data-services/rabbitmq/install_commericial/cluster-operator/controllers/reconcile_rabbitmq_configurations.go:30-67 | A builder's step over an existing ConfigMap that is not as wanted: its data changes if and only if, by the replies and the outside writes of the calls to come, the update lands; it changes without a new marker if and only if these calls lose the marker - the update lands, and its reply is lost or no annotation lands in the calls after it - and then the pass ends with an error |
| LostMarkers.LostForGood | deployment/cloud/k8/data-services/rabbitmq/install_commericial/cluster-operator/controllers/reconcile_rabbitmq_configurations.go:30-67 | Whenever the calls lose the marker, no marker is written over any later run whose passes read this spec, and the changed data stays |
| LostMarkers.CrashLosesMarker | deployment/cloud/k8/data-services/rabbitmq/install_commericial/cluster-operator/controllers/reconcile_rabbitmq_configurations.go:30-67 | A pass that stops between the two writes is such a case |
| LostMarkers.AskedForAgain | deployment/cloud/k8/data-services/rabbitmq/install_commericial/cluster-operator/controllers/utils.go:36-60 | A ConfigMap not to be found is asked for again in each attempt |
| Runs.RunKeeps | deployment/cloud/k8/data-services/rabbitmq/install_commericial/cluster-operator/controllers/rabbitmqcluster_controller.go:89-243 | Every run of passes and outside steps keeps the invariant (audit log sound, markers and restart times as logged, versions fresh) and only grows the store |
| Runs.ReconcileKeeps | deployment/cloud/k8/data-services/rabbitmq/install_commericial/cluster-operator/controllers/rabbitmqcluster_controller.go:89-243 | One pass, under any failures: keeps the invariant and growth, completes only with all children settled, and on settled children disturbs nothing |
| Paused.PausedRun | deployment/cloud/k8/data-services/rabbitmq/install_commericial/cluster-operator/controllers/rabbitmqcluster_controller.go:107-118 | Over every run that starts with a paused resource and in which nobody lifts the pause, the store is, up to versions and the resource's status, the one that comes about without the operator, and the log gets only the beginnings of passes |
| Paused.PausedPass | deployment/cloud/k8/data-services/rabbitmq/install_commericial/cluster-operator/controllers/rabbitmqcluster_controller.go:107-118 | A pass that reads a paused resource ends for good whatever happens at its calls; StatefulSet, claims, ConfigMaps and the other children are what the others' steps made of them; the log grows by the beginning of the pass alone; and if the status write goes through, the stored warning condition is false with reason "reconciliation paused" and the other conditions stand |
| Endings.UndisturbedPass | deployment/cloud/k8/data-services/rabbitmq/install_commericial/cluster-operator/controllers/rabbitmqcluster_controller.go:120-242 | An undisturbed pass over any store: it ends for good on plain listeners turned off without TLS and on a scale-down, with an error on unfit secrets, on volumes that cannot come to the size wanted and on a plugins marker that is no time, waits while replicas are not ready on one revision or the plugins are younger than two seconds, and completes otherwise; each time the status says so, with the reason; its first three conditions are true exactly if all replicas are ready, some address is there, memory limit and request agree; the finalizer is there, the rebalance marker exactly if it was or a rolling update of more than one replica is under way, and past the children the user's secret is recorded exactly if Vault does not have it |
| Endings.CommandsHeldBack | deployment/cloud/k8/data-services/rabbitmq/install_commericial/cluster-operator/controllers/reconcile_rabbitmq_configurations.go:131-141 | Whatever happens at the calls, a pass waits with the commands exactly when the StatefulSet it reads is not ready on one revision, or the plugins it reads changed less than two seconds ago |
| Endings.StatusConflictWaits | deployment/cloud/k8/data-services/rabbitmq/install_commericial/cluster-operator/controllers/rabbitmqcluster_controller.go:279-302 | Whatever happens at the calls, the status step waits exactly when its write meets a newer version of the resource, and goes on exactly when both reads are answered and the conditions need no write or theirs is confirmed; any other failure is an error |
| Endings.FailedChildIsTold | deployment/cloud/k8/data-services/rabbitmq/install_commericial/cluster-operator/controllers/rabbitmqcluster_controller.go:208-212 | A child that could not be applied ends the pass with an error, and unless its write fails the status says so |
| Endings.EachChildOnce | deployment/cloud/k8/data-services/rabbitmq/install_commericial/cluster-operator/internal/resource/rabbitmq_resource_builder.go:29-48 | Each kind of child has its builder, once, the StatefulSet's last; the default user's secret has one exactly if Vault does not have the user |
| Failures.NoRefusalPassedOver | deployment/cloud/k8/data-services/rabbitmq/install_commericial/cluster-operator/controllers/rabbitmqcluster_controller.go:89-243 | Whatever happens at the calls, a pass that does not end with an error got through to the server at every call but its last, the write of the outcome; only polls for the end of a StatefulSet it deleted may fail |
| Settling.HealthyPassCompletes | deployment/cloud/k8/data-services/rabbitmq/install_commericial/cluster-operator/controllers/rabbitmqcluster_controller.go:89-243 | A pass over a healthy cluster (children as wanted, claims large enough, replicas ready, no restart due, nothing pending) with every call answered completes, records the generation, changes nothing but the resource's status and finalizer, and leaves the cluster healthy |
| Recovery.ReadyPassHeals | deployment/cloud/k8/data-services/rabbitmq/install_commericial/cluster-operator/controllers/rabbitmqcluster_controller.go:120-242 | One pass over children as wanted, replicas ready and markers aged, with every call answered, restarts if due, runs the marked commands, completes and leaves a healthy cluster |
| Applying.FirstPassApplies | deployment/cloud/k8/data-services/rabbitmq/install_commericial/cluster-operator/controllers/rabbitmqcluster_controller.go:165-224 | One pass over a resource in order, not to be shrunk, with every call answered and nobody else acting but the garbage collector, leaves every child as the resource wants it and every claim large enough; claims that are too small are expanded, the StatefulSet being deleted, reaped within ten polls and created again |
| Applying.TwoPassesHeal | deployment/cloud/k8/data-services/rabbitmq/install_commericial/cluster-operator/controllers/rabbitmqcluster_controller.go:89-243 | So two passes, from a plugins marker that is a time past or none, with claims to expand or none, the replicas getting ready in between and two seconds passing, lead to a healthy cluster with its generation observed |
| Creation.CompletedPassFlags | deployment/cloud/k8/data-services/rabbitmq/install_commericial/cluster-operator/controllers/reconcile_cli.go:57-62 | Whatever happens at the calls, a pass that completes on a StatefulSet made in it has run the feature flags command with success |
| Creation.NewIsMarked | deployment/cloud/k8/data-services/rabbitmq/install_commericial/cluster-operator/controllers/reconcile_rabbitmq_configurations.go:55-61 | Whatever happens at the calls, a pass gets past the children with a StatefulSet made in it only if that has its creation marker, a time |
| Creation.TwoPassesEnableFlags | deployment/cloud/k8/data-services/rabbitmq/install_commericial/cluster-operator/controllers/rabbitmqcluster_controller.go:89-243 | When two passes heal a cluster as in TwoPassesHeal, a StatefulSet made in the first, as for every new resource, has had its feature flags enabled |
| StsWrites.CreationExact | deployment/cloud/k8/data-services/rabbitmq/install_commericial/cluster-operator/controllers/reconcile_rabbitmq_configurations.go:55-67 | The StatefulSet is created if and only if the read is answered and the creation reaches the server; it is left without its creation marker if and only if the reply to the creation is lost or, by the calls to come, no marker lands; and then the pass ends with an error |
| StsWrites.GoMeansMarked | deployment/cloud/k8/data-services/rabbitmq/install_commericial/cluster-operator/controllers/reconcile_rabbitmq_configurations.go:55-67 | From every state and for all calls, the StatefulSet's step goes on with a new StatefulSet only if that has its creation marker as a time; one that was there before gets none that neither it nor the resource had |
| StsWrites.UpdateExact | deployment/cloud/k8/data-services/rabbitmq/install_commericial/cluster-operator/controllers/rabbitmqcluster_controller.go:200-207 | A StatefulSet that does not fit the resource comes to fit it if and only if, by the calls to come, one of the attempts lands: both calls reach the server and nobody moved the StatefulSet in between |
| StsWrites.RestartDueExact | deployment/cloud/k8/data-services/rabbitmq/install_commericial/cluster-operator/controllers/reconcile_rabbitmq_configurations.go:81-129 | A restart that is due is written if and only if, by the calls to come, both reads are answered, the StatefulSet is still there and one of the attempts lands |
| StsWrites.WriteRestartExact | deployment/cloud/k8/data-services/rabbitmq/install_commericial/cluster-operator/controllers/reconcile_rabbitmq_configurations.go:106-116 | The retried write of the restart is made, once, if and only if one of the attempts lands |
| StsWrites.AskedForAgain | deployment/cloud/k8/data-services/rabbitmq/install_commericial/cluster-operator/controllers/utils.go:36-60 | A StatefulSet not yet to be found is asked for again in each attempt |
| Recovery.FixedWhenFits | deployment/cloud/k8/data-services/rabbitmq/install_commericial/cluster-operator/internal/resource/statefulset.go:95-136 | An update of the StatefulSet changes nothing if and only if replicas, capacity, template and annotations already fit |
| Restarts.NoLostRestart | deployment/cloud/k8/data-services/rabbitmq/install_commericial/cluster-operator/controllers/reconcile_rabbitmq_configurations.go:81-129 | A pass that goes on without restarting finds that no configuration change was ever marked or that this StatefulSet was restarted after the last marked change, at a strictly later second; one that restarts leaves a restart no earlier than every marker |
| Restarts.BoundedRestarts | deployment/cloud/k8/data-services/rabbitmq/install_commericial/cluster-operator/controllers/reconcile_rabbitmq_configurations.go:100-116 | The bound on restarts for any sound log |
| Restarts.EarlierRestartsShareTheSecond | deployment/cloud/k8/data-services/rabbitmq/install_commericial/cluster-operator/controllers/reconcile_rabbitmq_configurations.go:100-116 | Of two restarts for one marker the earlier bears the marker's second |
| Restarts.RestartsExactly | deployment/cloud/k8/data-services/rabbitmq/install_commericial/cluster-operator/controllers/reconcile_rabbitmq_configurations.go:81-129 | With the calls answered and nobody else acting, a marked configuration leads to a restart if and only if none is recorded on the StatefulSet or the one recorded is no later, by the second, than the marker |
| Restarts.WaitsExactly | deployment/cloud/k8/data-services/rabbitmq/install_commericial/cluster-operator/controllers/reconcile_rabbitmq_configurations.go:81-98 | Whatever happens at the calls, the pass waits if and only if the configuration is not there, or it is marked and the StatefulSet is not there; and it goes on at once if and only if the configuration is there without a marker |
| Restarts.SecondRestart | deployment/cloud/k8/data-services/rabbitmq/install_commericial/cluster-operator/controllers/reconcile_rabbitmq_configurations.go:100-116 | Two restarts of one StatefulSet for one marker: the first in the marker's own second, the next at a later one |
| Controllers.EmptyTextIsWords | deployment/cloud/k8/data-services/rabbitmq/install_commericial/cluster-operator/controllers/reconcile_cli.go:49 | An annotation's text is empty only for the empty text, never for a time, and work is pending exactly if there is some text |
| Restarts.TextAfterIsLater | deployment/cloud/k8/data-services/rabbitmq/install_commericial/cluster-operator/controllers/reconcile_rabbitmq_configurations.go:101 | The string comparison of the two annotations is comparison in time |
| Children.RestartSurvivesUpdate | deployment/cloud/k8/data-services/rabbitmq/install_commericial/cluster-operator/internal/resource/statefulset.go:119 | The restart annotation survives an update of the StatefulSet if and only if the spec's pod annotations bring no other value for it |
| Rfc3339.TextReadsBack | deployment/cloud/k8/data-services/rabbitmq/install_commericial/cluster-operator/controllers/reconcile_rabbitmq_configurations.go:67 | The written time has its fields and separators where section 5.6 of RFC 3339 puts them, and each field is read back as the number it was; the offset follows |
| Rfc3339.TextOrderIsTimeOrder | deployment/cloud/k8/data-services/rabbitmq/install_commericial/cluster-operator/controllers/reconcile_rabbitmq_configurations.go:101 | For all times with four-digit years written with one offset: text order is chronological order, and texts are equal only for equal times (section 5.1 of RFC 3339) |
| Rfc3339.FieldsComeFirst | deployment/cloud/k8/data-services/rabbitmq/install_commericial/cluster-operator/controllers/reconcile_rabbitmq_configurations.go:101 | With any two offset texts the local fields decide the text order, and the offset texts only between equal fields |
| Rfc3339.OffsetsMustAgree | deployment/cloud/k8/data-services/rabbitmq/install_commericial/cluster-operator/controllers/reconcile_rabbitmq_configurations.go:67-114 | For any two offsets of whole minutes, text order is the order of the instants if and only if the offsets are the same and the text of the first does not come before that of the second |
| Expansion.ScaleKeeps | deployment/cloud/k8/data-services/rabbitmq/install_commericial/cluster-operator/internal/scaling/scaling.go:32-74 | Any Scale call, whatever fails, keeps the run invariant, and when done records claims that all have the desired size |
| Expansion.DoneMeansExpanded | deployment/cloud/k8/data-services/rabbitmq/install_commericial/cluster-operator/internal/scaling/scaling.go:56-74 | A Scale call that returned nil leaves no claim below the desired size that existed before it; NilMeansNoneLeft has the others |
| LateClaims.NilMeansNoneLeft | deployment/cloud/k8/data-services/rabbitmq/install_commericial/cluster-operator/internal/scaling/scaling.go:56-74 | A nil result means no claim of the cluster is too small, over all failures and outside steps, if and only if no replica's claim is absent that the StatefulSet asks for in a size that is too small but not refused, with a call left after it is looked for |
| LateClaims.MissedAfterListing | deployment/cloud/k8/data-services/rabbitmq/install_commericial/cluster-operator/internal/scaling/scaling.go:56-74 | Whenever that condition fails and a claim is to be grown, there is a run of the call that returns nil with such a claim made after the listing |
| LateClaims.MissedDuringListing | deployment/cloud/k8/data-services/rabbitmq/install_commericial/cluster-operator/internal/scaling/scaling.go:76-98 | Whenever it fails and none is to be grown, there is one with the claim made during the listing |
| Expansion.ScaleProgress | deployment/cloud/k8/data-services/rabbitmq/install_commericial/cluster-operator/internal/scaling/scaling.go:100-192 | Over any call the number of claims too small plus the number of resizes is constant: it never grows and drops with each resize |
| Expansion.RetriesConverge | deployment/cloud/k8/data-services/rabbitmq/install_commericial/cluster-operator/internal/scaling/scaling.go:32-192 | The same over any sequence of Scale calls with one desired size |
| Convergence.ScaleExact | deployment/cloud/k8/data-services/rabbitmq/install_commericial/cluster-operator/internal/scaling/scaling.go:32-203 | With every call answered, from any intermediate state, a call past its guard returns nil if the StatefulSet goes in time, and when a claim must grow only then: gone before the deletion is tried, or there at the deletion and gone within ten polls; it returns nil if and only if the StatefulSet goes in time or no claim is below the size, when no volume is claimed up to the end of the listing |
| Convergence.RefusalsAreExact | deployment/cloud/k8/data-services/rabbitmq/install_commericial/cluster-operator/internal/scaling/scaling.go:42-54 | Ephemeral-to-persistent and shrinking are refused exactly on the capacities the StatefulSet read has, and nothing but that read has happened |
| Convergence.TenPolls | deployment/cloud/k8/data-services/rabbitmq/install_commericial/cluster-operator/internal/scaling/scaling.go:194-203 | A deleted StatefulSet is gone for the call if and only if it is reaped by the tenth poll |
| Expansion.ListingIsExact | deployment/cloud/k8/data-services/rabbitmq/install_commericial/cluster-operator/internal/scaling/scaling.go:76-98 | The listing has every claim of the replicas that existed, each once, with its size |
| Scaling.NeedingScaling | deployment/cloud/k8/data-services/rabbitmq/install_commericial/cluster-operator/internal/scaling/scaling.go:100-112 | The filter keeps exactly the claims strictly below the desired size |
| Spec.PVCNameInjective | deployment/cloud/k8/data-services/rabbitmq/install_commericial/cluster-operator/api/v1beta1/rabbitmqcluster_types.go:461-463 | Different replicas have different claim names |
| Scaler.PersistenceScaler.Scale | deployment/cloud/k8/data-services/rabbitmq/install_commericial/cluster-operator/internal/scaling/scaling.go:32-74 | The scaler's effect on the store and its outcome are those of the specification |
| Scaler.PersistenceScaler.GetClusterClaims | deployment/cloud/k8/data-services/rabbitmq/install_commericial/cluster-operator/internal/scaling/scaling.go:76-98 | The loop over the replicas lists what the specification lists |
| Scaler.PersistenceScaler.SmallClaims | deployment/cloud/k8/data-services/rabbitmq/install_commericial/cluster-operator/internal/scaling/scaling.go:100-112 | The loop computes the filter |
| Scaler.PersistenceScaler.DeleteSts | deployment/cloud/k8/data-services/rabbitmq/install_commericial/cluster-operator/internal/scaling/scaling.go:134-168 | Reads, deletes with orphan propagation and waits, as specified |
| Scaler.PersistenceScaler.RetryUntilGone | deployment/cloud/k8/data-services/rabbitmq/install_commericial/cluster-operator/internal/scaling/scaling.go:194-203 | Polls up to ten times |
| Scaler.PersistenceScaler.ScaleUp | deployment/cloud/k8/data-services/rabbitmq/install_commericial/cluster-operator/internal/scaling/scaling.go:170-192 | The loop reads and writes claim after claim up to the first error, as specified |
| Children.RunBuildersBuild | deployment/cloud/k8/data-services/rabbitmq/install_commericial/cluster-operator/controllers/rabbitmqcluster_controller.go:165-224 | The builder loop keeps every child settled that was, settles each one it has passed, and on settled children writes no marker |
| Children.PrepareStsPrepares | deployment/cloud/k8/data-services/rabbitmq/install_commericial/cluster-operator/controllers/rabbitmqcluster_controller.go:172-212 | The StatefulSet is updated only after no scale-down was found and every claim found was expanded, and only if its volumes can come to the size wanted |
| Children.ScaleDownIsRefused | deployment/cloud/k8/data-services/rabbitmq/install_commericial/cluster-operator/controllers/reconcile_scale_down.go:17-34 | This step ends the pass for good if and only if the StatefulSet read has more replicas than wanted, and then children and log are untouched |
| Children.ApplyMapKeeps | deployment/cloud/k8/data-services/rabbitmq/install_commericial/cluster-operator/controllers/rabbitmqcluster_controller.go:214-217 | Applying a ConfigMap under conflicts and lost replies touches that ConfigMap only and, on success, leaves it settled |
| Children.SettledMapIsLeft | deployment/cloud/k8/data-services/rabbitmq/install_commericial/cluster-operator/controllers/rabbitmqcluster_controller.go:214-217 | A ConfigMap that is as wanted is not written and yields no marker |
| Children.ApplyStsKeeps | deployment/cloud/k8/data-services/rabbitmq/install_commericial/cluster-operator/controllers/rabbitmqcluster_controller.go:214-217 | Applying the StatefulSet never lowers replicas nor drops a restart or creation marker, and on success leaves it settled |
| Children.AnnotateMapKeeps | deployment/cloud/k8/data-services/rabbitmq/install_commericial/cluster-operator/controllers/utils.go:36-56 | Writing a marker with retries keeps the data and the run invariant |
| Commands.RunOnPodsRuns | deployment/cloud/k8/data-services/rabbitmq/install_commericial/cluster-operator/controllers/reconcile_cli.go:90-101 | A command run counts as done only when it succeeded on every pod in turn; the first failure ends it |
| Commands.RunCommandsRuns | deployment/cloud/k8/data-services/rabbitmq/install_commericial/cluster-operator/controllers/reconcile_cli.go:18-66 | When this step lets the pass go on, all replicas were ready on one revision and no marker of pending work is left in the copies held |
| Passes.TLSCheckGuardsPorts | deployment/cloud/k8/data-services/rabbitmq/install_commericial/cluster-operator/controllers/reconcile_tls.go:18-26 | The TLS check ends the pass for good exactly on the specs for which the container ports would not match |
| Passes.StatusIsNotRewritten | deployment/cloud/k8/data-services/rabbitmq/install_commericial/cluster-operator/controllers/rabbitmqcluster_controller.go:279-302 | Conditions recomputed from the same StatefulSet and endpoints are not written |
| Passes.PreliminariesKeep | deployment/cloud/k8/data-services/rabbitmq/install_commericial/cluster-operator/controllers/rabbitmqcluster_controller.go:124-150 | The steps before the children keep invariant, children and observed generation |
| Reconciler.RabbitmqClusterReconciler.Reconcile | deployment/cloud/k8/data-services/rabbitmq/install_commericial/cluster-operator/controllers/rabbitmqcluster_controller.go:124-242 | After the read and the pause check the pass has the effect and result of the specification, step by step |
| Reconciler.RabbitmqClusterReconciler.RunBuilders | deployment/cloud/k8/data-services/rabbitmq/install_commericial/cluster-operator/controllers/rabbitmqcluster_controller.go:165-224 | The builder loop, with its scale-down guard, expansion and markers, has the specified effect |
| Reconciler.RabbitmqClusterReconciler.PrepareSts | deployment/cloud/k8/data-services/rabbitmq/install_commericial/cluster-operator/controllers/rabbitmqcluster_controller.go:172-212 | Guard and expansion before the StatefulSet's update, as specified |
| Reconciler.RabbitmqClusterReconciler.ApplyMap | deployment/cloud/k8/data-services/rabbitmq/install_commericial/cluster-operator/controllers/rabbitmqcluster_controller.go:214-217 | Create-or-update of a ConfigMap with retry on conflict, as specified |
| Reconciler.RabbitmqClusterReconciler.ApplySts | deployment/cloud/k8/data-services/rabbitmq/install_commericial/cluster-operator/controllers/rabbitmqcluster_controller.go:214-217 | Create-or-update of the StatefulSet with retry on conflict, as specified |
| Reconciler.RabbitmqClusterReconciler.UpdateData | deployment/cloud/k8/data-services/rabbitmq/install_commericial/cluster-operator/internal/resource/configmap.go:84-247 | Brings the data of either ConfigMap up to date through its own update method |
| Reconciler.RabbitmqClusterReconciler.UpdateSts | deployment/cloud/k8/data-services/rabbitmq/install_commericial/cluster-operator/internal/resource/statefulset.go:95-136 | Sets replicas, capacity and template and merges annotations, as specified |
| Reconciler.RabbitmqClusterReconciler.AnnotateIfNeeded | deployment/cloud/k8/data-services/rabbitmq/install_commericial/cluster-operator/controllers/reconcile_rabbitmq_configurations.go:30-76 | Marks an updated ConfigMap and a created StatefulSet, nothing else |
| Reconciler.RabbitmqClusterReconciler.AnnotateMap | deployment/cloud/k8/data-services/rabbitmq/install_commericial/cluster-operator/controllers/utils.go:36-56 | Retries on conflict and absence, as specified |
| Reconciler.RabbitmqClusterReconciler.RestartStatefulSetIfNeeded | deployment/cloud/k8/data-services/rabbitmq/install_commericial/cluster-operator/controllers/reconcile_rabbitmq_configurations.go:81-129 | The restart decision and write, as specified |
| Reconciler.RabbitmqClusterReconciler.WriteRestart | deployment/cloud/k8/data-services/rabbitmq/install_commericial/cluster-operator/controllers/reconcile_rabbitmq_configurations.go:106-116 | The restart write with retry on conflict, as specified |
| Reconciler.RabbitmqClusterReconciler.RunRabbitmqCLICommandsIfAnnotated | deployment/cloud/k8/data-services/rabbitmq/install_commericial/cluster-operator/controllers/reconcile_cli.go:18-66 | The three conditional commands in order, as specified |
| Reconciler.RabbitmqClusterReconciler.RunOnPods | deployment/cloud/k8/data-services/rabbitmq/install_commericial/cluster-operator/controllers/reconcile_cli.go:90-101 | The loop over the pods, as specified |
| Reconciler.RabbitmqClusterReconciler.RunSetPlugins | deployment/cloud/k8/data-services/rabbitmq/install_commericial/cluster-operator/controllers/reconcile_cli.go:87-103 | Runs on every pod, then removes the marker with the version read |
| Reconciler.RabbitmqClusterReconciler.RunEnableFeatureFlags | deployment/cloud/k8/data-services/rabbitmq/install_commericial/cluster-operator/controllers/reconcile_cli.go:68-81 | Runs on pod 0, then removes the creation marker with the version read |
| Reconciler.RabbitmqClusterReconciler.RunQueueRebalance | deployment/cloud/k8/data-services/rabbitmq/install_commericial/cluster-operator/controllers/reconcile_cli.go:105-117 | Runs on pod 0, then removes the rebalance marker with the version read |
| Reconciler.RabbitmqClusterReconciler.UpdateStatusConditions | deployment/cloud/k8/data-services/rabbitmq/install_commericial/cluster-operator/controllers/rabbitmqcluster_controller.go:279-302 | Recomputes conditions and writes the status only when they changed |
| Reconciler.RabbitmqClusterReconciler.ReconcileTLS | deployment/cloud/k8/data-services/rabbitmq/install_commericial/cluster-operator/controllers/reconcile_tls.go:18-35 | The configuration check and the secrets check, as specified |
| Reconciler.RabbitmqClusterReconciler.CheckTLSSecrets | deployment/cloud/k8/data-services/rabbitmq/install_commericial/cluster-operator/controllers/reconcile_tls.go:37-85 | Which secrets and keys are required |
| Reconciler.RabbitmqClusterReconciler.MarkForQueueRebalance | deployment/cloud/k8/data-services/rabbitmq/install_commericial/cluster-operator/controllers/rabbitmqcluster_controller.go:375-389 | Marks once, and only while the StatefulSet is being updated |
| Reconciler.RabbitmqClusterReconciler.ReconcileStatus | deployment/cloud/k8/data-services/rabbitmq/install_commericial/cluster-operator/controllers/reconcile_status.go:18-51 | Writes the user references only when they changed |
| Reconciler.RabbitmqClusterReconciler.SetCondition | deployment/cloud/k8/data-services/rabbitmq/install_commericial/cluster-operator/controllers/rabbitmqcluster_controller.go:327-334 | Sets a condition and ignores a failed status write |
| Deletion.DeletionIsFenced | deployment/cloud/k8/data-services/rabbitmq/install_commericial/cluster-operator/controllers/reconcile_finalizer.go:41-103 | Over every run with stale reads and objects deleted and made again: a StatefulSet that is deleted is owned by the cluster incarnation on whose behalf the deletion was issued; every listed pod that still exists carries the label when it is issued; a finalizer is removed only from the incarnation read |
| Deletion.DeletionCompletes | deployment/cloud/k8/data-services/rabbitmq/install_commericial/cluster-operator/controllers/reconcile_finalizer.go:41-103 | Undisturbed, one call labels every pod of the cluster, deletes the StatefulSet and lets the resource go |
| Deletion.ResourceGoesRegardless | deployment/cloud/k8/data-services/rabbitmq/install_commericial/cluster-operator/controllers/reconcile_finalizer.go:41-78 | Undisturbed, the resource goes in any case; its StatefulSet is gone with it if and only if there was none or its controller reference carries this incarnation's uid, and one of another owner is left alone with all pods |
| Deletion.OnlyErrorsLeaveIt | deployment/cloud/k8/data-services/rabbitmq/install_commericial/cluster-operator/controllers/reconcile_finalizer.go:43-70 | Whatever happens at the calls, unless the attempts ended in an error, which is only logged, no StatefulSet was left when they ended |
| DeletionRetries.RetryingGetsThere | deployment/cloud/k8/data-services/rabbitmq/install_commericial/cluster-operator/controllers/reconcile_finalizer.go:41-103 | While others touch and remove pods and every call is answered: the StatefulSet of this incarnation is deleted if and only if one of the attempts meets no pod that is there and was touched between its listing and its label; then every pod of the cluster that is left has the label; no pod of another cluster gets it; the resource goes either way, and one without the finalizer is left alone |
| DeletionRetries.LabelsExact | deployment/cloud/k8/data-services/rabbitmq/install_commericial/cluster-operator/controllers/reconcile_finalizer.go:94-100 | Pods are labelled in turn up to the first that is there and was touched since the listing, which is a conflict; pods removed since are passed over |
| Deletion.Finalizer.Prepare | deployment/cloud/k8/data-services/rabbitmq/install_commericial/cluster-operator/controllers/reconcile_finalizer.go:41-78 | The retry loop and the removal of the finalizer have the specified effect |
| Deletion.Finalizer.GetStatefulSetUID | deployment/cloud/k8/data-services/rabbitmq/install_commericial/cluster-operator/controllers/utils.go:70-85 | The uid is returned only if the controller reference carries the cluster's uid |
| Deletion.Finalizer.AddRabbitmqDeletionLabel | deployment/cloud/k8/data-services/rabbitmq/install_commericial/cluster-operator/controllers/reconcile_finalizer.go:80-103 | The loop labels pod after pod, passing over those not found |
| Sorting.SortEnvVar | deployment/cloud/k8/data-services/rabbitmq/install_commericial/cluster-operator/internal/resource/statefulset.go:294-310 | The in-place pass leaves the list the specification gives |
| Sorting.SortVolumeMounts | deployment/cloud/k8/data-services/rabbitmq/install_commericial/cluster-operator/internal/resource/statefulset.go:312-326 | The in-place pass leaves the list the specification gives |
| Sorting.PassPermutes | deployment/cloud/k8/data-services/rabbitmq/install_commericial/cluster-operator/internal/resource/statefulset.go:294-326 | The pass only rearranges, for any list |
| Sorting.MountsInOrder | deployment/cloud/k8/data-services/rabbitmq/install_commericial/cluster-operator/internal/resource/statefulset.go:312-326 | For every list with each mount once, in any places: cookie at 0, persistence at 1, a permutation |
| Sorting.EnvVarsInOrder | deployment/cloud/k8/data-services/rabbitmq/install_commericial/cluster-operator/internal/resource/statefulset.go:294-310 | The three variables end at 0, 1, 2 if and only if they do not start in one of three cyclic arrangements; always when they start in relative order; always a permutation |
| Sorting.EnvVarsOutOfOrder | deployment/cloud/k8/data-services/rabbitmq/install_commericial/cluster-operator/internal/resource/statefulset.go:294-310 | A list for which the order fails |
| Ports.GenerateServicePortsMap | deployment/cloud/k8/data-services/rabbitmq/install_commericial/cluster-operator/internal/resource/service.go:115-269 | Exactly the ports served for the enabled plugins and TLS settings, with their numbers |
| Ports.UpdateContainerPorts | deployment/cloud/k8/data-services/rabbitmq/install_commericial/cluster-operator/internal/resource/statefulset.go:863-974 | For every spec the TLS check accepts the container ports are exactly the service ports, epmd, and plain prometheus when TLS is on with plain listeners; for others they are not; no name twice; the probed port is declared |
| Ports.UpdateContainerPortsOnlyTLSListeners | deployment/cloud/k8/data-services/rabbitmq/install_commericial/cluster-operator/internal/resource/statefulset.go:976-1033 | The same for TLS-only listeners |
| Ports.UpdatePorts | deployment/cloud/k8/data-services/rabbitmq/install_commericial/cluster-operator/internal/resource/service.go:271-289 | For any existing ports and any order of ranging over the map: the survivors, then each missing port once |
| Ports.SurvivorKept | deployment/cloud/k8/data-services/rabbitmq/install_commericial/cluster-operator/internal/resource/service.go:275-282 | Each survivor is a desired port with the NodePort of its name's first occurrence |
| Ports.SurvivorsInOrder | deployment/cloud/k8/data-services/rabbitmq/install_commericial/cluster-operator/internal/resource/service.go:275-282 | Survivors keep the order of their first occurrences |
| Ports.SurvivorsComplete | deployment/cloud/k8/data-services/rabbitmq/install_commericial/cluster-operator/internal/resource/service.go:275-282 | Every existing desired name survives |
| Ports.UpdatedNamesOnce | deployment/cloud/k8/data-services/rabbitmq/install_commericial/cluster-operator/internal/resource/service.go:271-289 | Every desired name comes out exactly once and no other |
| Ports.UpdateService | deployment/cloud/k8/data-services/rabbitmq/install_commericial/cluster-operator/internal/resource/service.go:55-81 | Ports of the Service; a cluster-internal one keeps no NodePorts |
| Ports.ServiceUpdateSettles | deployment/cloud/k8/data-services/rabbitmq/install_commericial/cluster-operator/internal/resource/service.go:55-81 | A second update changes nothing, whatever the order of ranging over the map |
| Plugins.DesiredPlugins | deployment/cloud/k8/data-services/rabbitmq/install_commericial/cluster-operator/internal/resource/rabbitmq_plugins.go:82-94 | The loop with its seen-map computes the first occurrences of required then additional plugins |
| Plugins.KeepsFirstOccurrences | deployment/cloud/k8/data-services/rabbitmq/install_commericial/cluster-operator/internal/resource/rabbitmq_plugins.go:82-94 | Same elements, in the order of first occurrence, none twice |
| Plugins.RequiredComeFirst | deployment/cloud/k8/data-services/rabbitmq/install_commericial/cluster-operator/internal/resource/rabbitmq_plugins.go:70-94 | The required plugins are a prefix |
| Plugins.TextChangesWithList | deployment/cloud/k8/data-services/rabbitmq/install_commericial/cluster-operator/internal/resource/rabbitmq_plugins.go:96-103 | For comma-free names the stored text differs if and only if the list differs |
| Text.JoinAppends | deployment/cloud/k8/data-services/rabbitmq/install_commericial/cluster-operator/internal/resource/rabbitmq_plugins.go:96-103 | The joined text of two lists in a row is theirs with the separator between |
| Plugins.RepeatsAreSilent | deployment/cloud/k8/data-services/rabbitmq/install_commericial/cluster-operator/internal/resource/rabbitmq_plugins.go:51-63 | A repeated or required plugin added anywhere after its first place leaves the stored text as it is |
| Conditions.RabbitmqClusterStatus.SetConditions | deployment/cloud/k8/data-services/rabbitmq/install_commericial/cluster-operator/api/v1beta1/rabbitmqcluster_status.go:54-90 | The four conditions computed from the resources and the previous conditions |
| Conditions.RabbitmqClusterStatus.SetCondition | deployment/cloud/k8/data-services/rabbitmq/install_commericial/cluster-operator/api/v1beta1/rabbitmqcluster_status.go:92-101 | Only the first condition of the type changes |
| Conditions.RabbitmqClusterStatus.AllReplicasReadyCondition | deployment/cloud/k8/data-services/rabbitmq/install_commericial/cluster-operator/internal/status/all_replicas_ready.go:22-66 | The verdict on the replicas, dated by the status change |
| Conditions.RabbitmqClusterStatus.ClusterAvailableCondition | deployment/cloud/k8/data-services/rabbitmq/install_commericial/cluster-operator/internal/status/cluster_available.go:25-65 | The verdict on the endpoints, dated by the status change |
| Conditions.RabbitmqClusterStatus.NoWarningsCondition | deployment/cloud/k8/data-services/rabbitmq/install_commericial/cluster-operator/internal/status/no_warnings.go:22-58 | The verdict on the memory settings, dated by the status change |
| Conditions.ConditionHistory | deployment/cloud/k8/data-services/rabbitmq/install_commericial/cluster-operator/api/v1beta1/rabbitmqcluster_status.go:54-101 | After any interleaving that begins with SetConditions there are the four conditions in order, each dated by the last change of its status |
| Conditions.RecomputingIsIdentity | deployment/cloud/k8/data-services/rabbitmq/install_commericial/cluster-operator/api/v1beta1/rabbitmqcluster_status.go:54-90 | Recomputing on the same resources is the identity at any later time |
| Conditions.ReplicasAreJudged | deployment/cloud/k8/data-services/rabbitmq/install_commericial/cluster-operator/internal/status/all_replicas_ready.go:22-66 | Of the StatefulSet and the endpoints, in either order: unknown exactly without a StatefulSet, true exactly if as many replicas are ready as are wanted, one if none are named, else false with both numbers in the message |
| Conditions.ServiceIsJudged | deployment/cloud/k8/data-services/rabbitmq/install_commericial/cluster-operator/internal/status/cluster_available.go:25-65 | Unknown exactly without endpoints, true exactly if some subset has an address, else false |
| Conditions.MemoryIsJudged | deployment/cloud/k8/data-services/rabbitmq/install_commericial/cluster-operator/internal/status/no_warnings.go:22-58 | Unknown exactly without a StatefulSet, true exactly if memory limit and request agree, else false |
| Conditions.SuccessIsCarriedOver | deployment/cloud/k8/data-services/rabbitmq/install_commericial/cluster-operator/api/v1beta1/rabbitmqcluster_status.go:54-90 | The fourth condition is one that was there, or, if there was none, unknown and initialising |
| Conditions.ConditionIsSet | deployment/cloud/k8/data-services/rabbitmq/install_commericial/cluster-operator/api/v1beta1/rabbitmqcluster_status.go:92-101 | Setting one condition: the first of its type has the new status, reason and messages, dated anew only if its status changed; all others stand, and a type that is not there is not added |
| ConfigMaps.ConfigMap.UpdateServerConf | deployment/cloud/k8/data-services/rabbitmq/install_commericial/cluster-operator/internal/resource/configmap.go:215-247 | Sets two keys, and sets or removes two more |
| ConfigMaps.ConfigMap.UpdateProperty | deployment/cloud/k8/data-services/rabbitmq/install_commericial/cluster-operator/internal/resource/configmap.go:249-255 | Removes the key for an empty value, else sets it |
| ConfigMaps.ConfigMap.UpdatePlugins | deployment/cloud/k8/data-services/rabbitmq/install_commericial/cluster-operator/internal/resource/rabbitmq_plugins.go:51-63 | Sets the text of the desired plugins |
| ConfigMaps.ServerDataHolds | deployment/cloud/k8/data-services/rabbitmq/install_commericial/cluster-operator/internal/resource/configmap.go:215-255 | What a reader finds under the four keys, whatever stood there before; every other key is as it was |
| ConfigMaps.PluginsDataHolds | deployment/cloud/k8/data-services/rabbitmq/install_commericial/cluster-operator/internal/resource/rabbitmq_plugins.go:51-63 | The list of desired plugins stands under its key, and every other key is as it was |
| Contents.PluginsMapSays | deployment/cloud/k8/data-services/rabbitmq/install_commericial/cluster-operator/internal/resource/rabbitmq_plugins.go:51-63 | The plugins ConfigMap is as wanted if and only if it has the text of the required and the spec's plugins |
| Contents.ServerMapSays | deployment/cloud/k8/data-services/rabbitmq/install_commericial/cluster-operator/internal/resource/configmap.go:84-255 | The server ConfigMap is as wanted if and only if it has the spec's four texts, an empty one by its absence |
| Contents.AppliedContents | deployment/cloud/k8/data-services/rabbitmq/install_commericial/cluster-operator/controllers/rabbitmqcluster_controller.go:165-217 | Where a resource was applied, both ConfigMaps say what it wants |
| Contents.PluginEditShows | deployment/cloud/k8/data-services/rabbitmq/install_commericial/cluster-operator/internal/resource/rabbitmq_plugins.go:51-103 | An edit of the plugins unsettles the ConfigMap if and only if it changes the list of desired plugins |
| Contents.ConfEditShows | deployment/cloud/k8/data-services/rabbitmq/install_commericial/cluster-operator/internal/resource/configmap.go:215-255 | An edit of the configuration unsettles the ConfigMap if and only if it changes one of the texts |
| Contents.CreatedMap | deployment/cloud/k8/data-services/rabbitmq/install_commericial/cluster-operator/internal/resource/configmap.go:69-78 | Whatever happens at the calls, a ConfigMap that was created has only the operator's keys, and as annotations exactly those of the resource that are not Kubernetes's |
| Contents.NewMapIsUnmarked | deployment/cloud/k8/data-services/rabbitmq/install_commericial/cluster-operator/controllers/reconcile_rabbitmq_configurations.go:38-53 | Whatever happens at the calls, the step of a ConfigMap that was not there writes no marker |
| ConfigMaps.UpdatesAreIdempotent | deployment/cloud/k8/data-services/rabbitmq/install_commericial/cluster-operator/internal/resource/configmap.go:215-255 | Both updates are the identity on what they produced |
| Metadata.MergeWithFilter | deployment/cloud/k8/data-services/rabbitmq/install_commericial/cluster-operator/internal/metadata/annotation.go:22-37 | The nested loops merge map after map, in any order of keys |
| Metadata.MergedTakesLast | deployment/cloud/k8/data-services/rabbitmq/install_commericial/cluster-operator/internal/metadata/annotation.go:22-37 | Each key has the value of the last map that passes one, else the base's |
| Metadata.MergeIsIdempotent | deployment/cloud/k8/data-services/rabbitmq/install_commericial/cluster-operator/internal/metadata/annotation.go:14-37 | Merging again changes nothing |
| Metadata.BaseSurvives | deployment/cloud/k8/data-services/rabbitmq/install_commericial/cluster-operator/internal/metadata/annotation.go:14-37 | A value of the base stays if and only if no passing entry replaces it |
| Metadata.KubernetesKeys | deployment/cloud/k8/data-services/rabbitmq/install_commericial/cluster-operator/internal/metadata/annotation.go:39-45 | A key is left to Kubernetes if and only if it has kubernetes.io or k8s.io somewhere in it |

## Left out

- Overrides of the StatefulSet and the Service, and strategic merge patches.
- `reconcileOperatorDefaults`: defaults for the image and pull secrets come from outside the spec.
- A custom resource that is not found, and the deletion branch, in `Reconcile`; deletion is modelled in `Deletion` on its own store.
- Staleness of cached reads outside `Deletion` and `StaleReads`: elsewhere a read shows the store at that call. Writes carry the version that was read, and what the calls keep (`Calls`) is proved for any copy that was stored once.
- Runs.ReplicasNeverDecrease: supposes reads that show the store; with the cached client StaleReads.CachedRunKeeps and StaleReads.LoweredExactly say what is left of it.
- The INI text of `rabbitmq.conf`, `removeHeadroom`, the environment file and Vault templates: the spec carries the rendered texts.
- Secrets' random content, the default user secret's port table, and the content of the generated children, which are compared as "applied from this spec".
- Labels and owner references other than the StatefulSet's in `Deletion`; server-side defaulting; the rejection by the server of changed claim templates.
- Messages of conditions set by a pass; logging and recorded events.
- The number of retries on conflict is a parameter; waiting times between retries and requeue intervals are not modelled.
- One reading of the clock serves all four conditions of `SetConditions`.
- The namespace in the pod listing of a deletion: the operator lists by label alone.
- A plugins ConfigMap that is not found when commands are run ends the pass with an error; the operator dereferences it.
- Others neither resize nor remove claims. A StatefulSet deleted by a user is met in all safety results; `Convergence.ScaleExact` supposes that nobody else deletes it.
- That the server treats a write without any change as no write: a restart in the second of the last one counts as a restart here.
- Users are taken not to set `rabbitmq.com/lastRestartAt` through Vault annotations nor `rabbitmq.com/serverConfUpdatedAt` on the resource (nor, for recovery, `rabbitmq.com/createdAt`); the owner reference of a StatefulSet and the deletion label of a pod are taken to stay once set.
- Annotation values are times in the operator's own offset or other texts; a text that parses as a time in another offset counts as other text.
- Expansion.DoneMeansExpanded: speaks of the claims that existed before the call; LateClaims.NilMeansNoneLeft speaks of all.
