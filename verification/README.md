# A verified model of the Alibaba Cloud controller manager's NLB reconcile engine

The project models the part of the controller that turns a Kubernetes service into
a network load balancer (NLB): the finalizer and hash-label protocol, the search,
creation and deletion of the NLB, the reconciliation of server groups, servers and
listeners, and the final cleanup. Five smaller pieces of the same repository stand
beside it: backend weights, the certificates of an application load balancer (ALB)
listener, the certificate list cache of the CAS provider, the retry clock with the
batching of forwarding rules, and names, paging and list comparison.

`dafny verify dfyconfig.toml` checks everything.

## Main results

- **At most one NLB, always** (`Lifecycle.AtMostOneAlways`). In every history of runs,
  user edits, API failures, lost answers, crashes, and deletion jobs that finish or fail
  later, the service never has two load balancers.
- **No leak, and exactly when it fails** (`Lifecycle.NoLeakAlways`, `Lifecycle.GuardedExactly`).
  A live NLB implies the finalizer as long as every step is guarded: no cleanup starts with
  an unchanged hash while an NLB is live, and no accepted deletion job fails once a cleanup
  relies on it or the finalizer is gone. The guard is exact over whole histories: all steps
  are guarded if and only if no state on the way is one from which the run at work can leak.
  `LifecycleRace.LeakWithoutCalm` is a history with an unguarded step: adding the finalizer
  reads the object again into the variable the run works on, so a run can store the hash of
  a state that needs deletion; its status patch fails, the next run dies between create and
  tag, and a later cleanup of an equal state takes the unchanged-hash shortcut past the
  delete. `Lifecycle.CalmIsGuarded` says that a service that does not stop needing its NLB
  between the two reads of a run never gets there.
- **The imperative run refines the protocol** (`Reconciler.ReconcileNLB.Reconcile`,
  `Reconciler.ReconcileNLB.ReconcileRepeatedly`). The controller works on a service object
  and load balancers of its own; what happens between its calls and how they end is an
  input. Each run's end says what it achieved, and the two results above hold after each
  single step of any number of runs. Whatever else happens, a live NLB is put at risk only
  by a run that read a terminating or unwanted service. A run in which no call fails ends as
  a function of the state it met: for a wanted service it keeps every live NLB and fails
  exactly when no model can be built, when creation is refused because the status names an
  NLB, or when an attribute that is fixed for life would change; any other service with the
  finalizer is cleaned up.
- **A completed cleanup may leave the status behind** (`LifecycleStatus`). Clearing the status
  reports an error only if every try asks for another, so the ingress entry is gone if and
  only if there was none or the patch took effect. If it stays, a service that wants an NLB
  again never gets one: every run refuses, whatever else happens.
- **One application: ownership, convergence, and the exact condition for referential
  integrity** (`Applier.Apply`). Before the final cleanup every listener targets an existing
  group after each call, including the last one of a run cut short. A successful run of any
  kind (changed or unchanged hash, owned or reused NLB, with or without override) keeps
  referential integrity if and only if no listener that it leaves as it is targets a group
  that it gives up; both are determined by the state before the run when groups are resolved
  by unique names. A run fails only if a call fails, it is refused (the status names an NLB
  that is gone, the NLB may not be reused, or a fixed attribute would change), or a listener
  names no group; a refused run fails and changes nothing.
- **Histories of applications** (`History.Reconciles`, `History.RevertBreaks`). With others
  changing the cloud between the runs, integrity holds after every call of any number of
  runs, and a run that skips its listeners because
  the hash is unchanged finds exactly the desired ones, as long as no run relies on a label
  that outlived a run for another spec. The shortest history that does (store the label of
  `a`, move to `b` without storing its label, go back to `a`) loses integrity whenever no
  call fails.
- **Server convergence, idempotence and make-before-break** (`ServerSync`), **group
  resolution** (`GroupApplier`), **weights** (`Weights`, `Backends`), **certificates**
  (`Certificates.UpdateALBListener`), **cache freshness** (`CertCache.FreshAfterReturn`),
  **retry bounds** (`Attempts`), **tail-first rule updates** (`RuleBatches`), **names**
  (`Names`, `Builder`), **paging** (`Paging`), **list comparison** (`StringSlices`) and
  **attribute overlay** (`Overlay`).

## What is taken as given

- Runs for one service do not overlap, and a read returns the current object.
- The service hash is injective; it is modelled by the value that is hashed.
- Listings are consistent and complete; ids are never reused; an id 0 stands for the
  empty id.
- A call ends in one of three ways: it took effect and was answered, it failed without
  effect, or it took effect although the caller saw an error.
- A nil error means that a request was accepted, not that its job finished, because the
  waits of the provider drop their timeouts. In `Lifecycle` a deleted NLB lingers until its
  job finishes, or is live again if the job fails. In `NlbCloud`, and so in everything said
  about servers, groups and listeners, the world is the state of the accepted requests: an
  accepted request counts as done and does not fail later.
- For the life cycle the id and name annotations stay empty and other owners do not use
  this service's default name or tag value.
- Servers are keyed by the identity that `isServerEqual` compares: type with id, id and
  address, or address. Convergence and make-before-break are about these identities.
- The only caller of the rule updates matches rules by priority and direction, so there no
  rule moves (`RuleBatches.MatchedIsClear`); the results are for any matching.
- `reconbackend.Batch` calls its function on consecutive chunks and stops at the first
  error.
- A port and protocol occurs once per load balancer. For integrity, listeners of other
  load balancers do not use groups named for this service.
- Letter case is that of ASCII letters. Go's `int` is 64 bits wide; the 32-bit
  conversions of ports and weights are modelled with wrap-around.

## Model

| member | source | states |
|---|---|---|
| `Lifecycle.SearchInvStep` | pkg/provider/alibaba/nlb/loadbalancer.go:39-71 | every step of a run and of the environment keeps: at most one own NLB, a search by tag that found nothing means that none is tagged, and what the searches found is the one own NLB |
| `Lifecycle.LeakInvStep` | pkg/controller/service/nlb_controller.go:177-243 | every guarded step keeps: a live NLB implies the finalizer, no live NLB is left once a cleanup will delete nothing more, and the reconcile path has the finalizer |
| `Lifecycle.AtMostOneAlways` | pkg/controller/service/loadbalancer.go:57-96 | in every reachable state, including failure between create and tag, at most one NLB of the service exists |
| `Lifecycle.NoLeakAlways` | pkg/controller/service/nlb_controller.go:136-243 | in every state that guarded steps lead to, a live NLB implies that the service object exists and carries the finalizer |
| `Lifecycle.GuardExact` | pkg/controller/service/model_applier.go:44-49 | a step is guarded if and only if the run that follows cannot leak, whatever its calls and the environment do |
| `Lifecycle.GuardedExactly` | pkg/controller/service/nlb_controller.go:136-243 | over whole histories of a new service, all steps are guarded if and only if the run at work can leak from no state on the way |
| `Lifecycle.CalmIsGuarded` | pkg/controller/service/nlb_controller.go:212-243 | if the service does not stop needing its NLB between the two reads of a run and deletion jobs fail only where harmless, every step is guarded and nothing leaks |
| `LifecycleRace.LeakWithoutCalm` | pkg/controller/helper/finalizer.go:34-53 | for every wanting, buildable spec and every unwanting one there is a history with one edit between the two reads of a run, a failed status patch and a failed tag, but no failed deletion job, that ends with a live NLB and no finalizer |
| `LifecycleStatus.UnclearedStatusSticks` | pkg/controller/service/nlb_controller.go:335-387 | from every state in which a service with NLB and status stops being wanted, a cleanup in which only the status patch goes wrong completes, and the next wanting edit leaves the service stuck |
| `LifecycleStatus.StuckForever` | pkg/controller/service/model_applier.go:108-114 | while a stuck service is wanted, no run ever creates its NLB, whatever its calls and the environment do |
| `Reconciler.ReconcileNLB.GetService` | pkg/controller/service/nlb_controller.go:136-152 | a missing object ends the run; any other failed read leaves an empty object |
| `Reconciler.ReconcileNLB.AddFinalizers` | pkg/controller/helper/finalizer.go:34-53 | adds the finalizer to the object as it is now and hands that object to the run; refused on a terminating object |
| `Reconciler.ReconcileNLB.BuildLocalModel` | pkg/controller/service/nlb_controller.go:245-252 | fails exactly when the object is wanted and its spec cannot be built or a call fails; nothing else changes |
| `Reconciler.ReconcileNLB.Search` | pkg/provider/alibaba/nlb/loadbalancer.go:241-318 | the one match, nothing, or an error if the listing fails or matches more than one |
| `Reconciler.ReconcileNLB.Find` | pkg/provider/alibaba/nlb/loadbalancer.go:39-71 | decides by the tag search unless that finds nothing, and only then searches by name; a quiet search finds nothing exactly when there is no own NLB; no live NLB is lost |
| `Reconciler.ReconcileNLB.DeleteLB` | pkg/provider/alibaba/nlb/loadbalancer.go:146-157 | marks exactly this NLB as deleting; a missing one is reported as such; afterwards no live own NLB is left |
| `Reconciler.ReconcileNLB.CreateLB` | pkg/controller/service/loadbalancer.go:84-96 | on success an NLB with the default name and tag exists; either call may fail or take effect unseen; no live NLB is lost |
| `Reconciler.ReconcileNLB.ApplyLoadBalancerAttribute` | pkg/controller/service/model_applier.go:81-144 | deletion leaves no live NLB, creation leaves a tagged one; creation is refused when the status names an NLB, an update when a fixed attribute would change, and a quiet run fails in no other case; a wanted service loses no live NLB |
| `Reconciler.ReconcileNLB.Apply` | pkg/controller/service/model_applier.go:32-79 | the attribute phase only if the hash changed; a quiet run fails exactly when the attribute phase refuses |
| `Reconciler.ReconcileNLB.BuildAndApply` | pkg/controller/service/nlb_controller.go:245-264 | a quiet run fails exactly when no model can be built or the attribute phase refuses |
| `Reconciler.ReconcileNLB.AddServiceLabels` | pkg/controller/service/nlb_controller.go:389-403 | if the patch takes effect the stored hash is that of the object the run works on, and nothing else changes |
| `Reconciler.ReconcileNLB.UpdateServiceStatus` | pkg/controller/service/nlb_controller.go:266-333 | a patch that takes effect in one of its tries leaves an ingress entry; the last error is reported, a missing object included |
| `Reconciler.ThreeTries` | pkg/controller/helper/service_utils.go:123-151 | three tries are made while each asks for another; the first that does not is the last, and the patch took effect if and only if one of those made did |
| `Reconciler.ReconcileNLB.RemoveServiceLabels` | pkg/controller/service/nlb_controller.go:405-422 | removes the hash exactly if the object had one; without one it cannot fail |
| `Reconciler.ReconcileNLB.RemoveServiceStatus` | pkg/controller/service/nlb_controller.go:335-387 | clears the ingress if the object had one and the patch takes effect; reports an error only if every try asks for another, so a failed read or a final error is swallowed |
| `Reconciler.ReconcileNLB.RemoveFinalizers` | pkg/controller/helper/finalizer.go:55-75 | removes the finalizer and nothing else |
| `Reconciler.ReconcileNLB.CleanupLoadBalancerResources` | pkg/controller/service/nlb_controller.go:177-210 | nothing without the finalizer; complete means label and finalizer gone, the ingress cleared if and only if there was none or its patch took effect, and, if the hash differed and no deletion job failed, no live NLB; a quiet cleanup completes |
| `Reconciler.ReconcileNLB.ReconcileLoadBalancerResources` | pkg/controller/service/nlb_controller.go:212-243 | complete means finalizer set, the hash of the object as the second read returned it stored, and the status written; a quiet run completes unless the spec cannot be built or the attribute phase refuses; a live NLB is put at risk only if the second read returned a service that needs deletion |
| `Reconciler.ReconcileNLB.Reconcile` | pkg/controller/service/nlb_controller.go:136-175 | every run is an execution of the protocol and its end says what it achieved; a live NLB is put at risk only if the service, as it was read, is terminating or not of type LoadBalancer and its hash differs; a quiet run for a wanted service keeps every live NLB and fails exactly when no model can be built or a changed hash meets a missing NLB that the status names, or a fixed attribute of another value; for any other service with the finalizer it cleans up |
| `Reconciler.ReconcileNLB.ReconcileRepeatedly` | pkg/controller/service/nlb_controller.go:136-243 | the ends of all runs with what each achieved; after every single step at most one NLB, and no leak while steps are guarded |
| `ServerSync.ServerEqualIsIdentity` | pkg/controller/service/server_groups.go:939-955 | for supported types the comparison is equality of an identity: id and address, id, or address |
| `ServerSync.Diff` | pkg/controller/service/server_groups.go:889-937 | the three loops compute the additions, deletions and updates that the convergence results are about |
| `ServerSync.Convergence` | pkg/controller/service/server_groups.go:252-276 | from any servers, add, remove, update gives every desired server its port, weight and description, removes every other server that is not user-managed and keeps the user-managed ones unchanged |
| `ServerSync.SecondDiffEmpty` | pkg/controller/service/server_groups.go:889-937 | after convergence a new listing gives an empty diff |
| `ServerSync.BatchServers` | pkg/controller/service/server_groups.go:278-320 | chunks go out in order; wherever it stops, exactly a prefix of the list has been applied |
| `ServerSync.UpdateServerGroupServers` | pkg/controller/service/server_groups.go:252-320 | success means converged; after every call either all old or all desired servers are in the group; no other group changes |
| `ServerSync.MakeBeforeBreak` | pkg/controller/service/server_groups.go:252-276 | in each such state every server that is both old and desired is present, and the group is not empty when both sets are not |
| `ServerSync.SyncedStable` | pkg/controller/service/server_groups.go:889-937 | with the desired servers in place, a diff against any outdated listing changes nothing |
| `GroupApplier.FindRemote` | pkg/controller/service/model_applier.go:146-194 | a remote group of the id asked for or, with an empty id, the first of the name; none exactly when there is none |
| `GroupApplier.EnsureGroup` | pkg/controller/service/model_applier.go:160-192 | updates the group found, which for a given id is the one with that id, or creates, fills and appends a new one; creates at most once and only for a name that is not remote |
| `GroupApplier.ApplyVGroups` | pkg/controller/service/model_applier.go:146-194 | at most one creation per name and none for a remote name, although the remote list grows; on success each group has the id of the first remote group of its name and exactly its desired servers, one that asks for a listed id keeps that id, and every group in the cloud that was resolved to has the name of a desired group resolved to it; on failure no group is lost |
| `GroupApplier.SharedName` | pkg/controller/service/model_applier.go:146-194 | groups that share a name share one non-empty id that exists in the cloud and in the remote list |
| `ListenerApplier.FindServerGroup` | pkg/controller/service/model_applier.go:313-323 | the id of the first group of the name, or an error exactly when there is none |
| `ListenerApplier.DeleteListeners` | pkg/controller/service/model_applier.go:211-237 | notes the id in every matching desired listener; deletes exactly the unmatched listeners and, on a reused NLB, only those named for this service |
| `ListenerApplier.UpdateNLBListener` | pkg/controller/service/listeners.go:121-208 | a stopped listener runs afterwards and has the desired group and description; no other listener changes, and none changes its port |
| `ListenerApplier.ApplyListeners` | pkg/controller/service/model_applier.go:196-260 | no call at all on a reused NLB without force-override; otherwise, on success, every desired listener runs with its group, and exactly the listeners that had to be left alone or belong to others are unchanged; wherever it stops, ports stay unique and other NLBs are untouched |
| `Applier.Cleanup` | pkg/controller/service/model_applier.go:262-286 | deletes exactly the listed groups that carry this service's name and are not desired; wherever it stops nothing else has changed |
| `Applier.ApplyLoadBalancerAttribute` | pkg/controller/service/model_applier.go:81-144 | deletes only an NLB that is not user-managed, with exactly its listeners; fails without a failing call exactly when nothing is to be deleted and the status names an NLB that is gone, the NLB found may not be reused, or a fixed attribute would change, and then nothing has changed and no recorded call was made |
| `Applier.GroupPhase` | pkg/controller/service/model_applier.go:51-56 | on success the groups to be given up are the tagged groups of this service that nothing was resolved to, which are those of undesired names when names are unique; names stay unique even on failure |
| `Applier.ListenerPhase` | pkg/controller/service/model_applier.go:58-65 | on success exactly the surviving listeners are unchanged and all others target a desired group |
| `Applier.CleanupIntegrity` | pkg/controller/service/model_applier.go:262-286 | after the phases of a run, removing what it gives up keeps integrity if and only if no surviving listener of the state before the run targets it |
| `Applier.Apply` | pkg/controller/service/model_applier.go:32-79 | ownership for every call; integrity after every call before cleanup; integrity after success if and only if no surviving listener targets a discarded group; exact servers and listeners, NLB gone on deletion, nothing discarded left; a refused run fails and changes nothing, and no run in which a call failed succeeds; the state in which a run can start is kept on every exit |
| `History.RunOnce` | pkg/controller/service/model_applier.go:32-79 | a run of an owned NLB on a state that is ready leaves it ready with every call intact, unless it skips listeners that are off plan; then, if it succeeds, integrity is kept exactly when they use no group it gives up; a refused run fails and changes nothing |
| `History.Reconciles` | pkg/controller/service/nlb_controller.go:245-264 | any number of runs, with moves of others before each, up to the first that relies on an outlived label: integrity after every call, and unchanged-hash runs find exactly the desired listeners |
| `History.StaleLabel` | pkg/controller/helper/service_utils.go:107-119 | a label that outlives a run for another spec makes the next run for its own spec find its hash unchanged |
| `History.RevertBreaks` | pkg/controller/service/model_applier.go:58-76 | storing the label of one spec, moving to another without storing its label, and going back loses integrity whenever no call fails |
| `Names.SplitJoinExactly` | pkg/model/nlb/nlb.go:255-313 | splitting a joined name gives the pieces back if and only if no piece contains the separator |
| `Names.AtoiItoa` | pkg/model/nlb/nlb.go:241-281 | a printed number is read back |
| `Names.ItoaAtoi` | pkg/model/nlb/nlb.go:255-281 | an accepted number prints to the same text if and only if that text is canonical and fits 32 bits |
| `Names.GroupRoundTrip` | pkg/model/nlb/nlb.go:283-313 | loading a printed group key gives it back exactly when the prefix is the default and no component has a dot, and fails otherwise |
| `Names.ListenerRoundTrip` | pkg/model/nlb/nlb.go:241-281 | the same for listener keys |
| `Names.GroupNameOfLoaded` | pkg/model/nlb/nlb.go:290-313 | every accepted group name is the name of the key it parses to |
| `Names.ListenerNameOfLoaded` | pkg/model/nlb/nlb.go:248-281 | for listener names this holds if and only if the port field is canonical |
| `Names.GroupNameInjective` | pkg/model/nlb/nlb.go:283-295 | equal group names come from equal keys |
| `Names.ListenerNameInjective` | pkg/model/nlb/nlb.go:241-253 | equal listener names come from equal keys |
| `Names.GroupOwnedExactly` | pkg/model/nlb/nlb.go:229-313 | a printed group name is managed by the service in its key if the key can be read back, and by nobody else |
| `Names.ListenerOwnedExactly` | pkg/model/nlb/nlb.go:229-281 | the same for listener names |
| `Names.NeverAnothers` | pkg/model/nlb/nlb.go:229-313 | a name printed for one service is never taken for another's, whatever characters its parts contain |
| `Builder.ProtocolKept` | pkg/controller/service/listeners.go:214-239 | normalising the protocol chosen for a listener, as the group builder does, leaves it unchanged |
| `Builder.ScanExactly` | pkg/controller/service/listeners.go:214-239 | the protocol scan fails exactly when a malformed item comes before the first one for the port; otherwise that item decides, and without one the port's own protocol |
| `Builder.BuildableExactly` | pkg/controller/service/listeners.go:52-110 | a listener cannot be built exactly when the idle-timeout or rate annotation is no number, or the protocol annotation has a malformed item before the first one for its port |
| `Builder.SameProtocolExactly` | pkg/controller/service/listeners.go:214-239 | two ports of one number with different protocols of their own get the same protocol exactly when the annotation mentions the number |
| `Builder.ParseZoneMappings` | pkg/controller/service/loadbalancer.go:190-217 | one mapping per item with its parts, or an error exactly when some item has no colon |
| `Builder.ZonesRoundTrip` | pkg/controller/service/loadbalancer.go:190-217 | mappings written as zone, switch and the addresses given are read back |
| `LocalModel.BuiltIsProper` | pkg/controller/service/listeners.go:32-41 | a built model is what the results on histories ask for exactly when no two ports have the same number and the same chosen protocol |
| `LocalModel.CollideExactly` | pkg/controller/service/listeners.go:214-239 | for the ports of a valid service, that fails exactly when two ports share a number that the protocol annotation mentions |
| `Builder.BuildLocalModel` | pkg/controller/service/server_groups.go:60-87 | building fails exactly when zones are missing or malformed, a listener cannot be built, or the endpoints or the attributes and servers of a group cannot; otherwise each listener is paired with the group built from it |
| `Builder.Pairing` | pkg/controller/service/server_groups.go:775-796 | on every built model the group search succeeds, gives a group of the listener's own protocol and of its target port (ENI backends) or node port (others), and both names parse to this service |
| `Weights.RemoveDuplicates` | pkg/controller/service/server_groups.go:591-603 | keeps exactly the backends before which there is none of their server |
| `Weights.PodNumberAlgorithm` | pkg/controller/service/server_groups.go:714-731 | in place: the number of pods of the server in Local mode, 100 otherwise |
| `Weights.PodPercentAlgorithm` | pkg/controller/service/server_groups.go:740-773 | in place: the share of each backend; panics exactly when it would divide by zero |
| `Weights.PodsConserved` | pkg/controller/service/server_groups.go:714-731 | without a configured weight the weights left after deduplication sum to the number of backends |
| `Weights.CountsAddUp` | pkg/controller/service/server_groups.go:725-729 | counting per server counts every backend once |
| `Weights.LocalTotalBounds` | pkg/controller/service/server_groups.go:759-771 | the total of k servers is within k of the configured weight if and only if every share fits 32 bits, which it does when the weight does, and at most the weight when that is at least the number of backends |
| `Weights.ShareMonotone` | pkg/controller/service/server_groups.go:764-771 | a server with more pods never gets less, if the larger share fits 32 bits |
| `Weights.ShareMonotoneExactly` | pkg/controller/service/server_groups.go:764-771 | as long as the share of a single pod fits 32 bits, a server with more pods never gets less if and only if the weight fits 32 bits |
| `Weights.PerBackendBounds` | pkg/controller/service/server_groups.go:749-757 | the total in ENI and Cluster mode is within the number of backends of the configured weight if and only if each weight fits 32 bits; then every weight is at least 1 |
| `Backends.SetBackendsFromEndpointSlices` | pkg/controller/service/server_groups.go:411-468 | a backend is in the result if and only if it is what the first ready endpoint of its address says: its hostname label, and the target number or the number of the first port of that name in its slice; addresses are distinct |
| `Backends.UpdateENIBackends` | pkg/controller/service/server_groups.go:672-694 | fails exactly when the lookup fails or an address has no interface; otherwise every backend has its interface |
| `Backends.BuildLocalBackends` | pkg/controller/service/server_groups.go:484-551 | fails exactly when a node name, an instance or an interface is missing; every server is that of an address: the interface on the port of the pod for a virtual node, otherwise the instance of a node that is not excluded, on the node port; and the server of every such address is in the result |
| `Backends.LocalFromSlices` | pkg/controller/service/server_groups.go:411-551 | the servers are exactly those of the first ready endpoints of the slices, in the same terms; without a configured weight the weights sum to the number of addresses served; with one, the total is within the number of servers of it; server ids are distinct |
| `Backends.ServingExactly` | pkg/controller/service/server_groups.go:501-520 | the addresses counted are those whose first ready endpoint is on a known node that is virtual or not excluded |
| `Certificates.PlannedConverges` | pkg/provider/alibaba/alb/listener.go:396-503 | the two phases land on the wanted set with one default from any state, and plan nothing from such a state |
| `Certificates.UpdateExtras` | pkg/provider/alibaba/alb/listener.go:396-503 | associates before it dissociates; afterwards the extras are those planned |
| `Certificates.MoveFlags` | pkg/provider/alibaba/alb/listener.go:615-650 | flips the default flag in place from the first certificate to the one that stays default |
| `Certificates.MovedFlagsAgree` | pkg/provider/alibaba/alb/listener.go:615-650 | the flipped flags name the listener's default if and only if the desired default came first |
| `Certificates.UpdateALBListener` | pkg/provider/alibaba/alb/listener.go:179-205 | success leaves exactly the desired certificates with one default; a second run makes no certificate call; nothing that is carried and wanted is ever off the listener, except in the one case where the new default is an extra and the old default is not wanted, and there it is; it fails exactly when a call or a wait fails |
| `Certificates.UpdateAgain` | pkg/provider/alibaba/alb/listener.go:179-205 | the update after a successful one makes no certificate call, although the first may have moved the default flag in the model |
| `CertCache.FreshAfterReturn` | pkg/provider/alibaba/cas/cas_provider.go:66-213 | in every interleaving, a list that starts after a successful create or delete returned has only pages read after that mutation took effect |
| `CertCache.StaleBeforeReturn` | pkg/provider/alibaba/cas/cas_provider.go:150-156 | before the mutation returns, a list may still see the old cache |
| `Attempts.Attempt.Next` | pkg/util/attempt.go:37-51 | makes an attempt exactly when forced, below Min, or both the clock and the end of the delay are before the end; an attempt that is not the first waits for the delay; a refusal changes nothing |
| `Attempts.Attempt.HasNext` | pkg/util/attempt.go:64-74 | the answer is what Next would do now, and a positive one is remembered; nothing else changes |
| `Attempts.AttemptsBounded` | pkg/util/attempt.go:25-62 | on every monotone trace the k-th attempt (k at least 2) is within Min or k-1 delays are less than Total |
| `Attempts.AttemptsSpaced` | pkg/util/attempt.go:37-62 | consecutive attempts are at least Delay apart |
| `Attempts.HasNextKept` | pkg/util/attempt.go:60-74 | after a positive HasNext the following calls up to the next attempt, and that one, succeed, however late they come |
| `Attempts.RefusedOnlyAfterMinimum` | pkg/util/attempt.go:37-51 | a refusal comes only after at least max(1, Min) attempts |
| `Attempts.RefusedExactly` | pkg/util/attempt.go:37-74 | on every monotone trace a call is refused if and only if at least one and at least Min attempts were made, no positive HasNext is open, and the total has run out or would by the end of the delay |
| `Attempts.RefusedForever` | pkg/util/attempt.go:37-74 | after a refusal every later call is refused |
| `RuleBatches.BatchCreateRules` | pkg/provider/alibaba/alb/rule.go:1610-1636 | chunks of 1 to 9 that carry a prefix of the rules, all of them on success; the ids are those of all responses in order |
| `RuleBatches.BatchUpdateRules` | pkg/provider/alibaba/alb/rule.go:1725-1746 | chunks of 1 to 9 from the tail, with a wait for the listener between two of them; whatever fails, a suffix has been sent; success exactly when all were sent and accepted; a failed wait ends the run |
| `RuleBatches.BatchDeleteRules` | pkg/provider/alibaba/alb/rule.go:1877-1893 | chunks of 1 to 9 that carry a prefix of the ids, all of them on success |
| `RuleBatches.TransRulePairsToSDKUpdateRules` | pkg/provider/alibaba/alb/rule.go:1748-1811 | one request for every rule whose name, actions, conditions or priority differ, with exactly the parts that differ at their desired value, in order, and none for the others; an error exactly when a pair cannot be compared or converted |
| `RuleBatches.TailFirst` | pkg/provider/alibaba/alb/rule.go:1731-1746 | updating the tail first gives the same rules as updating in order |
| `RuleBatches.ClearExactly` | pkg/provider/alibaba/alb/rule.go:1725-1811 | wherever the updates are cut, priorities are distinct within each direction if and only if no rule moves to a priority that a rule before it of its direction still has |
| `RuleBatches.DistinctThroughout` | pkg/provider/alibaba/alb/rule.go:1725-1811 | for clear pairs, after any number of update requests, whatever became of the last, no two rules of a direction share a priority, unchanged rules being skipped |
| `RuleBatches.OrderedIsClear` | pkg/model/alb/rule.go:63-65 | pairs sorted by current priority whose desired priorities follow the same order within a direction and never move against it are clear, in both sort orders |
| `RuleBatches.MatchedIsClear` | pkg/controller/ingress/reconcile/applier/rule.go:184-226 | pairs matched by priority and direction are clear, and their updates carry no priority |
| `RuleBatches.UpdateALBListenerRules` | pkg/provider/alibaba/alb/rule.go:1813-1833 | on success every matched rule has its desired priority, name, actions and conditions, all others are as before, and a request was made for a rule exactly when it was not as desired; for clear pairs priorities are distinct after every request; nothing is sent when a pair or the listener cannot be resolved |
| `Paging.PageStep` | pkg/provider/alibaba/util/helper.go:23-28 | each page adds the interfaces that follow; without a next page none is left; otherwise the number left decreases |
| `Paging.DescribeChunk` | pkg/provider/alibaba/ecs/ecs.go:196-232 | the page loop terminates and on success visits every matching interface exactly once |
| `Paging.DescribeNetworkInterfaces` | pkg/provider/alibaba/ecs/ecs.go:178-237 | every address is asked for in exactly one chunk of at most 100; on success every address with an interface is in the result; every entry names an interface that has that address and one that was asked for, of the family asked for; it succeeds exactly when no request fails |
| `Paging.ExactWhenUnique` | pkg/provider/alibaba/ecs/ecs.go:210-221 | if no two interfaces share an address, the result is the interface of each address that has one and nothing for the others |
| `StringSlices.IsStringSliceEqual` | pkg/util/utils.go:88-106 | for a first list without case-insensitive duplicates, true exactly for permutations up to letter case |
| `StringSlices.ExactlyWithoutDuplicates` | pkg/util/utils.go:88-106 | the comparison means that for every second list if and only if the first list has no duplicates |
| `Overlay.OverlayListener` | pkg/controller/service/listeners.go:121-197 | no existing object changes; field by field the update has the local value where the service sets one that differs and the remote value otherwise; it is needed exactly when it differs |
| `Overlay.ListenerFixpoint` | pkg/controller/service/listeners.go:129-195 | comparing the update again reports nothing, it equals the remote listener exactly when nothing had to change, each set field that differs has its local value and each other field its remote one |
| `Overlay.OverlayGroup` | pkg/controller/service/server_groups.go:111-238 | the same for groups, the remote health check included; panics exactly when a flag read for the log message is nil |
| `Overlay.GroupFixpoint` | pkg/controller/service/server_groups.go:111-238 | comparing the update again reports nothing and cannot panic; each set field of the group and of its health check that differs has its local value and each other field its remote one |

## Left out

- SDK request building, type conversion, the SLB, VPC and SLS clients, metadata and HTTP: field copying and I/O.
- Event handlers, queues, logging, events, metrics, dry-run and mock providers.
- The conversion of rule conditions and actions: `RuleBatches.Rule` holds their converted forms, and a request sets the parts that it carries.
- ACL synchronisation of ALB listeners: convergence does not hold when the ACL type changes.
- Hash normalisation: the hash is an injective function here.
- A reused NLB in the life cycle: `Lifecycle` covers services with empty id and name annotations, `Applier.Apply` covers reuse.
- Server groups in the life cycle: a group whose creation took effect but whose tag did not is not listed again, and cleanup that ends at a missing NLB leaves groups behind, so no leak freedom is claimed for groups.
- The load balancer id label: it is written and removed together with the hash label.
- Stale informer caches: every read in `Lifecycle` returns the current object.
- Lifecycle.NoLeakAlways: is proved for guarded histories only; the claim without that condition is false, see `LifecycleRace.LeakWithoutCalm`, and the condition is exact, see `Lifecycle.GuardedExactly`.
- Unfinished and failed jobs other than the deletion of an NLB: `NlbCloud` takes an accepted request as done.
- History.Reconciles: is for one service with an NLB of its own whose groups are named for it and resolved by unique names; others leave its listeners and the names and tags of their groups alone, and no two ports collide (`LocalModel.CollideExactly`).
- Weights.PodsConserved: is for at most 2^31 - 1 backends, beyond which the 32-bit counter wraps around.
- Weights.LocalTotalBounds: is for weights whose product with the number of backends fits 64 bits.
- Weights.ShareMonotone: is for shares that fit 32 bits; beyond that it fails, see `Weights.ShareMonotoneExactly`.
- Weights.ShareMonotoneExactly: is for weights of which the share of a single pod fits 32 bits.
- Names.ListenerRoundTrip: is for ports that fit 32 bits, the type of a port.
- Certificates.UpdateALBListener: is for desired certificates with distinct ids and exactly one default, at any position.
- RuleBatches.UpdateALBListenerRules: a request is applied as a whole or not at all.
- Attempts.Attempt.Next: times are reals, so overflow of durations is not modelled.
- Paging.DescribeNetworkInterfaces: the server is stable and echoes the page number with a positive page size; overflow of page number times page size is not modelled.
- Backends.BuildLocalBackends: descriptions and the instance cache are not modelled; the id of an instance is an attribute of its node.
- The backends of ENI and Cluster mode, and those from Endpoints objects: they would only add easy members; their weights are covered by `Weights`.
- ListenerApplier.UpdateNLBListener: models the group, the description and the status of a listener; the other attributes are in `Overlay.OverlayListener`.
- Zone mappings, address types, names and tags of an existing NLB: an update of them may fail and is otherwise not tracked; of the fixed attributes only whether they would change.
- The condition under which an NLB may be reused is an input of `Applier.Run`.
- Letter case of fixed attributes: they are taken in one letter case.
- Clock skew and expiry policy of the certificate cache: an entry may expire at any step.
