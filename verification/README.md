# Verification model of the etcd operator

A Dafny model of the kstone etcd operator: how it scales an etcd cluster that runs as a TApp, derives the arguments of
each node, records the state of the members, keeps one goroutine per cluster, issues certificates, exposes the cluster
through a service, and admits changes to the EtcdCluster object.

The centre is scaling. A pass of the reconciler reads the spec and, some calls later, the TApp; it lists etcd's members,
adds or removes one, writes the TApp, and deletes a volume claim. Nothing is transactional, every call may fail or take
effect without a reply, and the TApp is read from a cache that may lag behind. `Protocol` states this as a transition
system over the TApp's versions, the etcd membership, the claims and the position of the reconciler; `ProtocolSafety`
gives the invariant; `ScalingTheorems` and `WriteBudget` draw the conclusions for every run. `EditDiscipline` says
exactly which edits of the spec the code copes with at which moment, and which ones a user can recognise as such.
`Convergence` shows that the cluster approaches and keeps its size, and from which states exactly it can get there;
`Undisturbed` and `Progress` show that every pass in which nothing goes wrong takes a step towards it, until the size is
reached and every learner is a served voter; they also show exactly when the pass that promotes the last learner trips
over its own status update and leaves the labels to the next one. `Reconciler` is the code itself, method by method, against a world in which
any call can fail and others act in between: every execution of it is shown to be a run of the protocol, and, while
the world is calm, every pass an undisturbed one.

| file | contents |
|---|---|
| Text.dfy | decimals, string order, trimming, splitting |
| Cluster.dfy | the objects and the names derived from them |
| Flags.dfy | flag lists: parser, printer, merge |
| NodeArgs.dfy, NodeFlags.dfy | arguments and templates of the nodes |
| PodLabels.dfy | labels of the pod templates, and whom the service reaches |
| Protocol.dfy, ProtocolSafety.dfy, ScalingTheorems.dfy, WriteBudget.dfy | the scaling protocol, its invariant, its theorems |
| Reachability.dfy, EditDiscipline.dfy, Convergence.dfy | what can happen: harmful and harmless edits, reaching the size |
| Undisturbed.dfy, Progress.dfy, Promotion.dfy | passes in which nothing goes wrong, and where they lead |
| MemberStatus.dfy, StatusTheorems.dfy, StatusNews.dfy | the recorded member list, and when it is stored |
| Reconciler.dfy | the reconciling code as a refinement of the protocol |
| Runner.dfy | wake-ups and life cycle of the per-cluster goroutines |
| Certificates.dfy, TlsMounts.dfy | certificate bootstrap, and who uses which secret |
| AccessService.dfy | the access service and owner references |
| Validation.dfy | admission checks |

Check it with `dafny verify dfyconfig.toml` (Dafny 4.11).

## Assumptions about the surroundings

- One reconciler works on a cluster at a time, and nobody else writes its TApp spec or changes its etcd members.
- Lister reads never go back in time. The API server refuses an update that was not computed from the current version.
- Size, Learners, settings and extra arguments may change at any moment as long as `Protocol.EditOk` holds. Its two
  conditions on half-done and pending steps are not conveniences: `EditDiscipline.EditExact` shows that exactly these
  edits are harmless. Admission does not enforce them. `EditDiscipline.VisibleOk` is a sufficient condition on what
  anybody can look up, and at rest (`EditDiscipline.AtRest`, which one pass after the last edit brings about) every
  admitted edit is fine. An edit takes effect here when the reconciler's cache shows it.
- A status update of the EtcdCluster is refused if the object has been written since the copy in hand was read, by an
  edit, by anybody else, or by the pass itself. So a pass works with one spec throughout, and of the two member lists
  that it may have to store, one after the other, only the first is accepted (`Undisturbed.PassCompletes`).
- Namespace, name, cluster domain and the choice of http or https between peers stay fixed while a cluster exists; with
  a changed peer scheme, scale-down would look for a URL that no member has.
- A TApp status that reports all pods ready was written after those pods had started etcd, and a started member
  publishes the name the operator gave it.
- etcd ids are non-zero and unique.
- Object names contain only lower-case letters, digits, dashes and dots, and the cluster domain has no comma
  (`NodeArgs.TemplateInitialCluster` and `ScalingTheorems.JoinerSeesMembership` need this, and that the user's extra
  arguments leave initial-cluster alone).
- In a calm world (`Reconciler.World.calm`) calls succeed, except updates that carry an outdated version; caches are
  current, nobody else acts, the pass does not end a pause (line 418 of etcd.go throws away the object that this write
  returns, which outdates the copy in hand from the start), and a node that answers knows whether it is a learner.
  Only the statements about undisturbed passes use it.
- Pod settings are compared as stored. `reflect.DeepEqual` tells an empty list from a missing one (`tolerations: []`);
  a spec with such a value may differ from the stored TApp in every pass, and the results on refreshes and on the
  number of writes (`WriteBudget`) do not hold for it.
- etcd accepts a learner beside another one where a run that reaches the size needs it (`Convergence.SizeReachable`,
  `Convergence.SizeReachableExactly`); its default limit is one learner.
- Certificate secrets of the operator are not deleted or edited, and the TLS settings stay fixed while they are made.

Where the code and its comments differ, the code was followed: the comment above the call of `ensureCert` in `sync` speaks
of synchronising the server certificate's SANs, but `ensureCert` only ever creates secrets.

## Model

| member | source | states |
|---|---|---|
| ScalingTheorems.MembershipInEveryRun | pkg/controller/etcdcluster/etcd.go:603-702 | in every run from a fresh cluster, with any call failing and any stale monotone read, the etcd members are exactly ordinals 0..k-1, each once, with k within one of Replicas; every TApp version ever accepted has pool and template keys exactly the decimals 0..Replicas-1, Replicas between 1 and 7, and ordinals mapped to their own template |
| ScalingTheorems.HalfDoneSteps | pkg/controller/etcdcluster/etcd.go:622-676 | one member more than Replicas is a half-done addition of ordinal Replicas, one fewer a half-done removal of ordinal Replicas-1, and neither coexists with a scaling write the reconciler has not observed yet |
| ScalingTheorems.MemberOrdinals | pkg/controller/etcdcluster/etcd.go:665-671 | an ordinal's peer URL is a member's exactly when the ordinal is below the member count |
| ScalingTheorems.AcceptedWrites | pkg/controller/etcdcluster/etcd.go:636-686 | an accepted write was computed from the current version and changes Replicas by nothing, or by exactly one towards the Size of its round, to the count the membership already has |
| ScalingTheorems.LearnersNotServed | pkg/controller/etcdcluster/etcd.go:356-369 | in every run, a template labelled voting-member true never belongs to a member that etcd counts as a learner |
| ScalingTheorems.GrowthKeepsQuorum | pkg/controller/etcdcluster/etcd.go:607-634 | when a member is added, member count, Replicas, reported and ready replicas agree and every earlier member has started; the voters before are a majority of the voters after if and only if there were at least two (a learner changes no count of voters) |
| ScalingTheorems.RemovalTakesHighest | pkg/controller/etcdcluster/etcd.go:665-676 | scale-down removes the member of ordinal Replicas-1 or nobody, whatever id the search returned, and afterwards that ordinal has no member |
| ScalingTheorems.ClaimsOfLiveOrdinals | pkg/controller/etcdcluster/etcd.go:689-697 | no step deletes the volume claim of an ordinal that the current TApp or the membership still has |
| ScalingTheorems.ClaimsSurvive | pkg/controller/etcdcluster/etcd.go:689-697 | no run deletes the claim of an ordinal that stays live throughout it |
| ScalingTheorems.RefreshOnce | pkg/controller/etcdcluster/etcd.go:704-733 | on every TApp the protocol can reach, refreshing twice equals refreshing once, for every list of extra arguments |
| ScalingTheorems.JoinerSeesMembership | pkg/controller/etcdcluster/etcd.go:622-646 | when ordinal R joins, the initial-cluster list its template gets names exactly the etcd members of that moment, in order, each with the URL it was added under, R last |
| ScalingTheorems.RefreshNeverUndoes | pkg/controller/etcdcluster/etcd.go:636-701 | after an accepted scaling write, the template refresh at the end of the same pass, which works on the TApp from before that write, changes nothing, whatever others do in between |
| WriteBudget.WritesWithinBudget | pkg/controller/etcdcluster/etcd.go:603-733 | in every run without edits, from a state in which no pass in flight works with an older spec, the operator's accepted TApp writes are at most the distance from Size plus one refresh plus one label change, whatever fails, is stale or is reported meanwhile |
| WriteBudget.WritesAfterEdit | pkg/controller/etcdcluster/etcd.go:603-733 | from any state of the protocol, a pass with an older spec in flight included, a run without edits makes at most five writes more than that, and none more if no pass was in flight |
| WriteBudget.NoHotLoop | pkg/controller/etcdcluster/etcd.go:363-367 | at the right size with fresh and labelled templates, and no pass in flight that works with an older spec, no run without edits writes the TApp again |
| WriteBudget.StepPaid | pkg/controller/etcdcluster/etcd.go:603-733 | with no pass in flight that works with an older spec, every accepted write of the operator lowers what remains to be written, and no other step raises it |
| WriteBudget.RefreshWrites | pkg/controller/etcdcluster/etcd.go:726-730 | a refresh finds something to write if and only if some ordinal's template lacks the settings or arguments of the spec |
| WriteBudget.FlipWrites | pkg/controller/etcdcluster/etcd.go:357-363 | the label change finds something to write if and only if some template is not labelled as a voter's |
| ProtocolSafety.ScaledUpWellFormed | pkg/controller/etcdcluster/etcd.go:636-646 | the scaled-up TApp has one more template and entry; the new template votes exactly when template 0 does and the new ordinal is not the learner, and no other label changes |
| ProtocolSafety.RefreshedWellFormed | pkg/controller/etcdcluster/etcd.go:704-724 | a refresh changes no key, label, replica count or status |
| ProtocolSafety.ReadSpecKeeps | pkg/controller/etcdcluster/etcd.go:185-192 | reading the spec keeps the invariant: the older spec of a pass in flight stays harmless under all allowed edits |
| ProtocolSafety.BeginKeeps | pkg/controller/etcdcluster/etcd.go:586-600 | so does reading the TApp later, in any version not older than the last one read |
| ProtocolSafety.EditKeeps | pkg/controller/etcdcluster/etcd.go:185-192 | allowed edits keep it, also between a pass's reading of the spec and of the TApp |
| ProtocolSafety.StepKeeps | pkg/controller/etcdcluster/etcd.go:603-733 | every step of the reconciler and of its environment keeps the whole protocol invariant |
| ProtocolSafety.RunKeeps | pkg/controller/etcdcluster/etcd.go:603-733 | so does every run |
| ProtocolSafety.InitKeeps | pkg/controller/etcdcluster/etcd.go:577-600 | the invariant holds for the freshly created TApp and its single member |
| ProtocolSafety.AddMemberKeeps | pkg/controller/etcdcluster/etcd.go:622-634 | adding a member, or skipping the addition because an earlier round made it, keeps it |
| ProtocolSafety.SaveUpKeeps | pkg/controller/etcdcluster/etcd.go:636-649 | the scale-up write keeps it |
| ProtocolSafety.RemoveMemberKeeps | pkg/controller/etcdcluster/etcd.go:665-676 | the removal keeps it |
| ProtocolSafety.SaveDownKeeps | pkg/controller/etcdcluster/etcd.go:678-686 | the scale-down write keeps it |
| ProtocolSafety.FlipLabelsKeeps | pkg/controller/etcdcluster/etcd.go:356-369 | turning every template into a voter's keeps it: it happens only when nobody is a learner |
| ProtocolSafety.PromoteMemberKeeps | pkg/controller/etcdcluster/etcd.go:394-401 | promotion keeps it |
| ProtocolSafety.FindInOrder | pkg/controller/etcdcluster/etcd.go:665-671 | searching the member list for ordinal n's peer URL returns that member's id, or none exactly when n has no member |
| ProtocolSafety.SeedWellFormed | pkg/controller/etcdcluster/tapp.go:40-97 | the seed has one replica and exactly template 0 |
| PodLabels.SeedCarries | pkg/controller/etcdcluster/tapp.go:71-176 | the first template carries every label of the spec outside the operator's two, the cluster's name, and a vote unless ordinal 0 is the learner |
| PodLabels.NewOrdinalTemplate | pkg/controller/etcdcluster/etcd.go:636-645 | the new ordinal's template agrees with template 0 on settings, fixed parts and every label but the voting one, which is false exactly for the learner or else template 0's; nothing but arguments changes elsewhere |
| PodLabels.LastOrdinalDropped | pkg/controller/etcdcluster/etcd.go:678-683 | scaling down takes away the last ordinal's template and entry and changes nothing else |
| PodLabels.OnlyVotesChange | pkg/controller/etcdcluster/etcd.go:357-363 | the label change sets every template's voting label to true and changes nothing else |
| PodLabels.LabelsInEveryRun | pkg/controller/etcdcluster/etcd.go:603-733 | in every run every template of every version carries the cluster's name, a voting label of true or false, and exactly the labels the spec had at creation |
| PodLabels.ServiceReachesVoters | pkg/controller/etcdcluster/service/service.go:82-94 | in every run the access service the operator makes reaches exactly the pods whose template votes, and never a learner's |
| EditDiscipline.EditExact | pkg/controller/etcdcluster/etcd.go:185-676 | an edit of Size or Learners at any moment of a run, the time between a pass's two readings included, leaves every continuation with a sound membership and no served learner if and only if the stated condition on half-done and pending steps holds |
| EditDiscipline.ForbiddenSize | pkg/controller/etcdcluster/etcd.go:622-676 | a Size that reverses a half-done or pending addition leads to a gap in the membership; one that reverses a removal leads to a TApp two ordinals ahead of it |
| EditDiscipline.VisibleIsEnough | pkg/controller/etcdcluster/etcd.go:603-676 | an edit judged only by the present spec, the TApp and the member list is allowed wherever the reconciler is, if it does not cross Replicas against a half-done or requested step and does not withdraw an incoming learner |
| EditDiscipline.AtRestEverythingGoes | pkg/controller/etcdcluster/etcd.go:603-676 | at rest (size reached, lister caught up, no pass with another size) every admitted edit is allowed |
| EditDiscipline.ForbiddenLearner | pkg/controller/etcdcluster/etcd.go:636-645 | withdrawing the learner while its addition is half-done leads to a template labelled voting for a learner |
| Convergence.StepApproaches | pkg/controller/etcdcluster/etcd.go:603-702 | with the spec unchanged no step, failed or not, increases the distance between Replicas and Size, and a step changes Replicas exactly when it decreases it |
| Convergence.RunApproaches | pkg/controller/etcdcluster/etcd.go:603-702 | the same along every run |
| Convergence.SizeStaysForEver | pkg/controller/etcdcluster/etcd.go:603-702 | once Replicas and membership have reached Size, every run leaves membership and peer URLs as they are: ordinals 0..Size-1 |
| Convergence.SizeReachable | pkg/controller/etcdcluster/etcd.go:603-702 | from every such state the reconciler can reach Size by its own steps and the pods' reports |
| Convergence.SizeReachableExactly | pkg/controller/etcdcluster/etcd.go:603-702 | from a state of the protocol the size with matching membership can be reached without further edits if and only if they agree already, or the size still asks for a step, or the pass in flight can finish the half-done one |
| Convergence.StuckForEver | pkg/controller/etcdcluster/etcd.go:603-702 | otherwise no run without edits ever gets there |
| Convergence.RestLasts | pkg/controller/etcdcluster/etcd.go:603-702 | a cluster at rest stays at rest until the next edit |
| Convergence.OnePassBringsRest | pkg/controller/etcdcluster/etcd.go:185-600 | one pass that starts after the last edit and reads the TApp at the right size brings it to rest |
| Convergence.ReadingWindowCanBreak | pkg/controller/etcdcluster/etcd.go:185-586 | a concrete run on which nothing is half-done, but a pass has read the larger Size and not yet the TApp, and lowering Size breaks the membership |
| Convergence.ReversalCanBreak | pkg/controller/etcdcluster/etcd.go:622-622 | a concrete run on which lowering Size during a half-done addition breaks the membership: the count test alone does not protect it |
| Convergence.ClearingLearnersCanBreak | pkg/controller/etcdcluster/etcd.go:636-645 | a concrete run on which clearing Learners during a half-done addition makes a learner selectable |
| Promotion.CompleteForEver | pkg/controller/etcdcluster/etcd.go:251-405 | once, at the right size and with no learner in the spec, every member is a voter and every template selectable, no run without edits undoes that |
| Undisturbed.PassScales | pkg/controller/etcdcluster/etcd.go:603-702 | every pass in which calls succeed, reads are current and nobody interferes takes exactly the scaling step that the size asks for, once pods are ready for it |
| Undisturbed.PassPromotes | pkg/controller/etcdcluster/etcd.go:356-405 | at the right size, with a ready pod and no learner in the spec, every such pass turns a learner into a voter if there is one, and makes every template selectable if there is none |
| Undisturbed.PassCompletes | pkg/controller/etcdcluster/etcd.go:346-369 | it ends with everybody a selectable voter if and only if etcd has no learner left and, unless all templates were selectable before, at most one of its two checks had a member list to store: the second store comes with the outdated version of the pass's own copy and is refused before the label change |
| Undisturbed.ToldStores | pkg/controller/etcdcluster/etcd.go:346-353 | a pass that promotes tries to store exactly the lists that its two checks find changed |
| Undisturbed.OwnStoreRefused | pkg/controller/etcdcluster/etcd.go:346-401 | with one learner left and both checks finding a change, no call failing and nobody interfering, the learner becomes a voter and its template stays out of the service |
| Undisturbed.NextPassCompletes | pkg/controller/etcdcluster/etcd.go:346-369 | the next undisturbed pass makes up for it |
| Undisturbed.SomePass | pkg/controller/etcdcluster/etcd.go:171-240 | from every idle state, and whatever its two checks find to store, there is such a pass: no position is a dead end |
| Progress.CampaignReachesSize | pkg/controller/etcdcluster/etcd.go:603-702 | as many undisturbed passes with ready pods as Replicas is away from Size reach it, with any failed or stale passes in between |
| Progress.CampaignCompletes | pkg/controller/etcdcluster/etcd.go:251-405 | with no learner in the spec, one more for each learner and a last one make every member a voter with a selectable template |
| Progress.EveryoneVotes | pkg/controller/etcdcluster/etcd.go:251-405 | from every state without an outdated pass, and whatever the checks find to store, there are such passes, with nothing in between but pods that start and are reported ready |
| Progress.PromotionCanEndRefused | pkg/controller/etcdcluster/etcd.go:346-401 | a concrete run without failures, from a fresh cluster with a learner over an allowed edit to an undisturbed pass that promotes the learner and leaves its template unselectable |
| StatusNews.NothingToStore | pkg/controller/etcdcluster/etcd.go:266-346 | in every state of the protocol a check stores nothing if and only if the list in hand has one entry for each ordinal in order, each saying what etcd lists and what the member last answered |
| StatusNews.EndpointsKept | pkg/controller/etcdcluster/etcd.go:279-292 | the endpoint recorded for a member stays, whatever it answers, and a newcomer has none |
| StatusNews.PromotionIsNews | pkg/controller/etcdcluster/etcd.go:324-346 | a recorded learner that answers as a voter leaves the check with a list to store |
| StatusNews.BothChecksStore | pkg/controller/etcdcluster/etcd.go:266-401 | concrete lists around a promotion for which both checks of a pass have something to store |
| Reconciler.World.constructor | pkg/controller/etcdcluster/etcd.go:577-600 | the outside world right after creation is a start of the protocol |
| Reconciler.World.Record | pkg/controller/etcdcluster/etcd.go:603-733 | whatever a method does to the world is one enabled action of the protocol, so executions are runs |
| Reconciler.World.ReadEtcdCluster | pkg/controller/etcdcluster/etcd.go:185-192 | reads the spec, and no TApp yet |
| Reconciler.World.SurroundingsReady | pkg/controller/etcdcluster/etcd.go:199-224 | between the two readings others may act, and the pass may end |
| Reconciler.World.FetchTApp | pkg/controller/etcdcluster/etcd.go:586-600 | the TApp read later, in any version not older than the last one read, goes with the spec read before |
| Reconciler.World.RereadTApp | pkg/controller/etcdcluster/etcd.go:251-260 | the same for the read in ensureMemberStatus, which stops without ready pods |
| Reconciler.World.MemberList | pkg/controller/etcdcluster/etcd.go:267-270 | lists the members and changes nothing |
| Reconciler.World.MemberAdd | pkg/controller/etcdcluster/etcd.go:622-633 | adds one member, or fails with or without having added it |
| Reconciler.World.MemberRemove | pkg/controller/etcdcluster/etcd.go:672-676 | removes the member of the given id, or fails with or without having removed it |
| Reconciler.World.MemberPromote | pkg/controller/etcdcluster/etcd.go:394-397 | turns the given learner, and nobody else, into a voter, or fails with or without having done so |
| Reconciler.World.UpdateTApp | pkg/controller/etcdcluster/etcd.go:647-686 | accepted only if computed from the current version; a lost reply ends the pass; without an error the new TApp is the current one |
| Reconciler.World.DeletePVC | pkg/controller/etcdcluster/etcd.go:689-697 | deletes the claim of the ordinal scaled away |
| Reconciler.World.UpdateStatus | pkg/controller/etcdcluster/etcd.go:346-353 | stores a member list without duplicate ids only if the copy in hand has the stored version of the EtcdCluster, in a calm world exactly then; the copy keeps its version, so a second store of the pass is refused |
| Reconciler.World.StoreStatus | pkg/controller/etcdcluster/etcd.go:346-353 | accepted exactly when the versions agree, and nothing else changes |
| Reconciler.RecordStatus | pkg/controller/etcdcluster/etcd.go:346-369 | the list is stored if it differs from the one in hand; if an earlier store of the pass has outdated the copy, the check fails in a calm world before any label changes |
| Reconciler.FindByPeerURL | pkg/controller/etcdcluster/etcd.go:665-671 | the search loop returns what the specification of the search says |
| Reconciler.ReconcileTApp | pkg/controller/etcdcluster/etcd.go:603-702 | every execution of the pass is a run of the protocol, whichever call fails |
| Reconciler.ScaleUp | pkg/controller/etcdcluster/etcd.go:607-650 | the scale-up branch is a run of the protocol that ends before the refresh or in an abandoned round |
| Reconciler.EnsureMemberAdded | pkg/controller/etcdcluster/etcd.go:612-634 | its membership half is a run of the protocol |
| Reconciler.ExtendedDraft | pkg/controller/etcdcluster/etcd.go:636-646 | the in-place edit of the copy yields exactly the scaled-up TApp: one more replica, template and entry, learner label, all arguments rebuilt |
| Reconciler.ScaleDown | pkg/controller/etcdcluster/etcd.go:652-698 | the scale-down branch is a run of the protocol |
| Reconciler.EnsureMemberRemoved | pkg/controller/etcdcluster/etcd.go:654-676 | its membership half |
| Reconciler.UpdateTAppTemplate | pkg/controller/etcdcluster/etcd.go:704-733 | the refresh writes only a changed TApp, and is a run of the protocol |
| Reconciler.RefreshedDraft | pkg/controller/etcdcluster/etcd.go:706-724 | the loops over the pool yield exactly the refreshed TApp |
| Reconciler.EnsureMemberStatus | pkg/controller/etcdcluster/etcd.go:251-372 | the status pass is a run of the protocol and stores what it worked out if that is news and the copy in hand is current; without an error, and unless no pod was ready, the member list records every learner of etcd whose own answer does not deny it, under unique ids |
| Reconciler.RefreshedStatus | pkg/controller/etcdcluster/etcd.go:266-344 | entry i of the new list is the member of ordinal i, in whatever state the pass meets etcd, and hasLearner says whether some member is a learner |
| Reconciler.RelabelTemplates | pkg/controller/etcdcluster/etcd.go:356-369 | nothing is written while the spec names a learner or etcd has one; otherwise, without an error, every template of the version read has the voting label afterwards |
| Reconciler.FlippedDraft | pkg/controller/etcdcluster/etcd.go:357-362 | the loop sets the label on every template and changes nothing else |
| Reconciler.EnsureLearner | pkg/controller/etcdcluster/etcd.go:374-405 | without an error and with no learner in the spec, the first recorded learner that etcd still counts as one becomes a voter, and nobody else changes; it is a run of the protocol |
| Reconciler.PromoteEntry | pkg/controller/etcdcluster/etcd.go:383-402 | the same for one recorded learner |
| Reconciler.SyncTApp | pkg/controller/etcdcluster/etcd.go:171-240 | a whole pass, whatever fails and whoever interferes, is a run of the protocol; in a calm world it is one undisturbed pass, takes the scaling step that is due, promotes a learner that is due, stores the first member list that is news, and leaves everybody selectable exactly if nobody is a learner any more and not both checks had news, or all labels were right before |
| MemberStatus.Join | pkg/controller/etcdcluster/etcd.go:272-311 | the nested loops produce, row by row, the updated old entries or a new one, and hasLearner exactly when a listed member is a learner |
| MemberStatus.JoinOne | pkg/controller/etcdcluster/etcd.go:277-310 | the same for one row |
| MemberStatus.OneEntryPerMember | pkg/controller/etcdcluster/etcd.go:276-311 | one entry per listed member, in order, if and only if the old list held none of them twice |
| MemberStatus.NoneDeparted | pkg/controller/etcdcluster/etcd.go:276-311 | every entry reports a listed member: name, URLs, and Running or UnStarted by name |
| MemberStatus.ComparisonUsable | pkg/controller/etcdcluster/etcd.go:314-319 | the comparison given to the sort is a strict order on the list if and only if at most one member is unnamed |
| MemberStatus.SortByName | pkg/controller/etcdcluster/etcd.go:313-319 | the sort permutes the list, and orders it by name with the unnamed member last when at most one is unnamed |
| MemberStatus.UpdateRoles | pkg/controller/etcdcluster/etcd.go:322-344 | every entry ends as the last answer of its member says, and unchanged without one |
| MemberStatus.RefreshMembers | pkg/controller/etcdcluster/etcd.go:272-344 | join, sort and role assignment together |
| StatusTheorems.RefreshRefinesMemberList | pkg/controller/etcdcluster/etcd.go:272-344 | with unique ids before, exactly one entry per listed member, none for a departed one, unique ids after, sorted by name if at most one is unnamed |
| StatusTheorems.RolesAsAnswered | pkg/controller/etcdcluster/etcd.go:322-344 | if every member answered, version and role are those of its own answer; if the answers agree on the leader, only that member's entry says Leader |
| StatusTheorems.AnsweredEntries | pkg/controller/etcdcluster/etcd.go:335-344 | an answered entry says Learner, Leader or Follower exactly as the answer does, with the version in it |
| StatusTheorems.HealthShown | pkg/controller/etcdcluster/etcd.go:286-309 | an entry says Running exactly when its member has a name and UnStarted exactly when it has none |
| StatusTheorems.HealthInEveryRun | pkg/controller/etcdcluster/etcd.go:286-309 | in every run entry i says Running exactly when the member of ordinal i has started |
| StatusTheorems.SilentEntries | pkg/controller/etcdcluster/etcd.go:276-311 | an entry whose member gave no answer shows a learner as one, and otherwise keeps role, version and endpoint of the old list, or has none for a newcomer |
| StatusTheorems.LeadersExact | pkg/controller/etcdcluster/etcd.go:276-344 | the list shows at most one Leader if and only if at most one listed member leads by the input: its own answer says so, or it is silent, not listed as learner, and recorded as Leader before |
| StatusTheorems.SilentMemberKeepsLeader | pkg/controller/etcdcluster/etcd.go:322-330 | a concrete refresh with a silent member that ends with two Leaders |
| StatusTheorems.ListsUsable | pkg/controller/etcdcluster/etcd.go:267-319 | in every state of the protocol MemberList has distinct ids and at most one unnamed member |
| StatusTheorems.StatusFollowsOrdinals | pkg/controller/etcdcluster/etcd.go:313-327 | in every state of the protocol, entry i of the refreshed list is the member of ordinal i, whatever order MemberList uses |
| StatusTheorems.StatusInEveryRun | pkg/controller/etcdcluster/etcd.go:272-344 | the same, with uniqueness and name order, for every run from a fresh cluster |
| StatusTheorems.RunKeepsNames | pkg/controller/etcdcluster/tapp.go:184-184 | in every run a started member carries the generated name of its ordinal |
| StatusTheorems.NameOrderIsOrdinalOrder | pkg/controller/etcdcluster/etcd.go:313-319 | sorting by generated name is sorting by ordinal if and only if there are at most ten |
| Flags.ToMap | pkg/utils/flag/flag.go:41-56 | the loop computes the meaning of a flag list |
| Flags.LastOccurrenceWins | pkg/utils/flag/flag.go:43-54 | that meaning has exactly the keys that occur, each with the value of its last non-empty occurrence |
| Flags.FlagForms | pkg/utils/flag/flag.go:43-54 | a key with or without dashes, with any blanks around key and value, is read as that key with that value, or with true if it has none |
| Flags.ToStringSlice | pkg/utils/flag/flag.go:59-70 | the printed list is the same for every iteration order of the map |
| Flags.PrintedContents | pkg/utils/flag/flag.go:61-67 | it holds exactly one entry per key, the bare key for an empty value |
| Text.LessIsLexicographic | pkg/utils/flag/flag.go:68-68 | the order of the list is that of dictionaries: the first difference decides, a proper prefix comes first |
| Flags.PrintedSorted | pkg/utils/flag/flag.go:68-68 | it is sorted |
| Flags.Merge | pkg/utils/flag/flag.go:31-38 | the loops compute the printed overlay of the two meanings, for every iteration order |
| Flags.MergedContents | pkg/utils/flag/flag.go:31-38 | the merged list holds, for each key of either list, the prefix to add, the key and the new value if there is one, and nothing else |
| Flags.PlainFlagMerged | pkg/utils/flag/flag.go:31-38 | a flag given without dashes is in the merged list with them and overrides the old value |
| Flags.MergeExamples | pkg/utils/flag/flag.go:27-30 | the two examples in the comment on Merge |
| Flags.ParsePrintable | pkg/utils/flag/flag.go:41-56 | every map the parser returns is printable |
| Flags.PrintableParsed | pkg/utils/flag/flag.go:41-56 | and every printable map is returned for some list |
| Flags.PrintParse | pkg/utils/flag/flag.go:41-70 | parsing a printed map gives it back with empty values replaced by true, and unchanged if and only if no value is empty |
| Flags.PrintedInjective | pkg/utils/flag/flag.go:59-70 | different maps print differently |
| Flags.MergeOverlays | pkg/utils/flag/flag.go:31-38 | the merged list means the old flags overridden by the new, empty values normalised, and is sorted |
| Flags.MergeIdempotent | pkg/utils/flag/flag.go:31-38 | merging the same new flags twice equals once if and only if no surviving old flag is empty |
| Flags.MergeAssociative | pkg/utils/flag/flag.go:31-38 | merging is associative if and only if the last list has no empty value and none survives from the first |
| NodeArgs.PeerList | pkg/controller/etcdcluster/tapp.go:209-214 | the inner loop builds the comma-joined entries of ordinals 0..i |
| NodeArgs.InitialClusterGrows | pkg/controller/etcdcluster/tapp.go:209-214 | node i's list is a proper prefix of node i+1's, which adds exactly that node |
| NodeArgs.NodeArgsValues | pkg/controller/etcdcluster/tapp.go:184-214 | name, advertised peer URL and peer list are the ordinal's own, and only ordinal 0 starts as new |
| NodeFlags.FlagNamesExact | pkg/controller/etcdcluster/tapp.go:180-232 | exactly which flags a node has: a token on the first only, a directory with a volume only, files with certificates only |
| NodeFlags.StartUpFlags | pkg/controller/etcdcluster/tapp.go:198-225 | state new with token namespace-name on ordinal 0, existing on later ones, data directory /var/lib/etcd |
| NodeFlags.FileFlags | pkg/controller/etcdcluster/tapp.go:184-221 | the certificate flags with their paths |
| NodeFlags.UrlFlags | pkg/controller/etcdcluster/tapp.go:182-222 | name and the four URLs in full; a node listens for peers with the scheme and on the port by which it is known to them |
| NodeArgs.ArgsPrintable | pkg/controller/etcdcluster/tapp.go:230-230 | generated arguments survive printing and parsing |
| NodeArgs.TemplateArgsParsed | pkg/controller/etcdcluster/tapp.go:230-241 | a template's argument list reads back as the node's arguments overridden by the user's |
| NodeFlags.TemplateFlags | pkg/controller/etcdcluster/tapp.go:230-241 | a container starts with exactly the node's flags and the user's, the user's value winning |
| NodeFlags.PodStartsAsNode | pkg/controller/etcdcluster/tapp.go:182-241 | unless overridden the pod keeps its data on the volume exactly if there is one, founds the cluster exactly if it is the first, and has its own name |
| NodeArgs.TemplateInitialCluster | pkg/controller/etcdcluster/tapp.go:209-241 | unless overridden, the peer list in the pod splits into one name=url entry per ordinal 0..i, with the very URLs used for joining |
| NodeArgs.RefreshSettles | pkg/controller/etcdcluster/etcd.go:704-730 | on any TApp, refreshing twice equals once if and only if every template outside 0..Replicas-1 has a value for each flag that the user does not override |
| NodeArgs.TAppDraft.ApplyEtcdNodeInitArgs | pkg/controller/etcdcluster/tapp.go:180-232 | the in-place loop rebuilds the arguments of exactly the templates of ordinals 0..Replicas-1 |
| NodeArgs.TAppDraft.ApplyEtcdExtraArgs | pkg/controller/etcdcluster/tapp.go:235-241 | the in-place loop merges the extra arguments into every template once, in any order |
| NodeArgs.TAppDraft.ApplySettings | pkg/controller/etcdcluster/etcd.go:708-720 | the in-place loop copies the pod settings into every template |
| NodeArgs.NewSeedTApp | pkg/controller/etcdcluster/tapp.go:40-97 | the new TApp has one replica, template 0 with the cluster and voting labels (voting false for a learner) and its arguments |
| Cluster.OrdinalNamesInjective | pkg/controller/etcdcluster/helpers/utils.go:39-120 | two ordinals never share a peer URL, a claim name or a member name |
| Cluster.SameNames | pkg/controller/etcdcluster/helpers/utils.go:39-120 | names depend only on namespace, name, scheme and domain |
| Cluster.NamesInFull | pkg/controller/etcdcluster/helpers/utils.go:28-46 | names of TApp, services, claims and members, spelled out |
| Cluster.URLsInFull | pkg/controller/etcdcluster/helpers/utils.go:79-145 | peer and client URLs, spelled out with scheme, domain annotation or default, and port or default |
| Cluster.LastFieldIsOrdinal | pkg/validation/validation.go:97-98 | the last dash-separated field of a generated member name is its decimal ordinal, whatever dashes precede it |
| Runner.NoWakeUpLost | pkg/controller/etcdcluster/etcd.go:123-167 | in every interleaving, after an Update has returned the lister has been read since, or a token is pending, or the runner is about to read, or it has returned after a stop |
| Runner.EveryWakeUpServed | pkg/controller/etcdcluster/etcd.go:839-845 | the same for every runner object the controller ever made |
| Runner.WakeUpsAndReads | pkg/controller/etcdcluster/etcd.go:132-163 | the buffer never exceeds one token, and wake-ups and lister reads match one to one |
| Runner.ClosedAtMostOnce | pkg/controller/etcdcluster/etcd.go:848-850 | a stop channel is closed at most once, and a returned runner never reads again |
| Runner.NeverStuck | pkg/controller/etcdcluster/etcd.go:132-167 | from wherever a runner is, at most three steps of its own lead to the select statement, and from there a pending wake-up to a read of the lister and a stop to the return |
| Runner.ClusterRunner.Update | pkg/controller/etcdcluster/etcd.go:839-845 | leaves exactly one token, without blocking |
| Runner.ClusterRunner.Stop | pkg/controller/etcdcluster/etcd.go:848-850 | closes an open channel |
| Runner.ClusterRunner.Step | pkg/controller/etcdcluster/etcd.go:132-167 | the goroutine does exactly what its position calls for; at the select statement, whichever ready case is picked |
| Runner.Controller.UpdateEtcdCluster | pkg/controller/etcdcluster/etcdcluster_controller.go:162-198 | afterwards the UID has a runner that is not stopped: the old one if there was one, else a new one |
| Runner.Controller.StopControl | pkg/controller/etcdcluster/etcdcluster_controller.go:201-211 | stops and forgets the UID's runner if there is one, and touches no other |
| Runner.AtMostOneActive | pkg/controller/etcdcluster/etcdcluster_controller.go:169-211 | of two runners ever made for one UID at least one has been stopped |
| Runner.Interleave | pkg/controller/etcdcluster/etcdcluster_controller.go:162-211 | every interleaving of events, their goroutines and runner steps keeps the table holding exactly the unstopped runners |
| Certificates.SecretNamesInjective | pkg/controller/etcdcluster/secure/certificate.go:86-99 | secret names determine cluster and type |
| Certificates.SecretNamesInFull | pkg/controller/etcdcluster/secure/certificate.go:43-51 | the secret names, spelled out |
| Certificates.SecretInFull | pkg/controller/etcdcluster/secure/certificate.go:226-369 | owner and files of a CA secret and of each type of certificate secret; certificate and key belong together |
| Certificates.NewSecretSigned | pkg/controller/etcdcluster/secure/certificate.go:153-369 | a new secret carries the CA certificate and is signed with the CA key; it verifies if and only if that key belongs to that certificate, which holds for a generated CA; creation fails exactly without a usable CA |
| Certificates.RunKeepsSound | pkg/controller/etcdcluster/etcd.go:510-575 | in every run of all runners of a namespace, secrets are only added, and every generated one is sound |
| Certificates.OneCAPerCluster | pkg/controller/etcdcluster/etcd.go:510-575 | in every such run, a generated certificate secret under a cluster's name is that cluster's, which has asked for it, and carries and is signed with the one CA secret it uses |
| Certificates.DeletedCAIsReplaced | pkg/controller/etcdcluster/etcd.go:522-533 | deleting the CA secret breaks this: the next pass makes another |
| Certificates.EnsureCert | pkg/controller/etcdcluster/etcd.go:510-575 | under stale reads, lost replies and interference, an error-free pass leaves every requested secret in place, the operator's own ones signed with the cluster's CA, in any order of the loop; with nothing in the way it reports no error exactly if a CA named by the user exists and whatever is requested exists or can be signed |
| Certificates.EnsureCA | pkg/controller/etcdcluster/etcd.go:519-547 | the CA secret in hand is the one stored under the cluster's CA name |
| Certificates.EnsureOne | pkg/controller/etcdcluster/etcd.go:557-572 | one type: found or created |
| Certificates.Namespace.Create | pkg/controller/etcdcluster/etcd.go:530-530 | never replaces a secret; may fail with or without effect |
| TlsMounts.ApplyEtcdTLSOptions | pkg/controller/etcdcluster/tapp.go:244-352 | mounts, per type, the external secret and then the generated one that the spec asks for |
| TlsMounts.MountPathsInFull | pkg/controller/etcdcluster/constants/etcd.go:43-54 | the mount paths, spelled out |
| TlsMounts.AcceptedMountsOnce | pkg/validation/validation.go:48-60 | admission accepts the certificate settings if and only if no type is mounted twice |
| TlsMounts.SchemesMatchMounts | pkg/controller/etcdcluster/helpers/utils.go:49-94 | clients and peers are addressed with https exactly when a server or peer secret is mounted |
| TlsMounts.CertificateFlags | pkg/controller/etcdcluster/tapp.go:185-221 | every certificate flag names a file below the mount path of its secret, and is present exactly when the secret is mounted |
| TlsMounts.FlagsBackedByStore | pkg/controller/etcdcluster/tapp.go:185-221 | after an error-free certificate pass over an admitted spec, each certificate flag of each node points into the one secret mounted at that path, at a CA certificate, a certificate and its private key |
| AccessService.ApplySettles | pkg/controller/etcdcluster/service/service.go:82-133 | for any existing service, applying twice equals applying once, and the provider then asks for no update; it fails exactly for an unknown provider |
| AccessService.ApplyKeepsTheRest | pkg/controller/etcdcluster/service/service.go:82-133 | ports of other names, owner references to others, other labels, selector entries and annotations are kept, in order; the cluster label, the voting selector and the service type are set |
| AccessService.PortsKept | pkg/controller/etcdcluster/service/service.go:96-118 | the last port named client gets the spec's port, or one is appended, and doing it twice changes nothing more |
| AccessService.OnlyClientPortChanges | pkg/controller/etcdcluster/service/service.go:96-118 | an existing client port keeps its place and all but its numbers and protocol, a new one goes to the end, and no other port changes |
| AccessService.OwnersKept | pkg/controller/controller_utils.go:34-57 | the first reference to the cluster is replaced or one is appended; other owners stay in order; doing it twice changes nothing more |
| AccessService.NeedUpdateExact | pkg/controller/etcdcluster/service/loadbalancer/providers/tke/clb.go:48-86 | a provider asks for an update exactly when applying it would change the service, except for an empty stale subnet annotation; after applying it never asks |
| AccessService.KindByAnnotation | pkg/controller/etcdcluster/service/service.go:120-127 | from the annotations alone: an error unless the provider is absent, empty or tke; ClusterIP with annotations untouched in the first two cases, LoadBalancer in the named subnet in the last |
| AccessService.CreatedService | pkg/controller/etcdcluster/service/service.go:68-133 | labels, selector, port and owner of a new service in full |
| AccessService.UpdatedService | pkg/controller/etcdcluster/service/service.go:96-133 | on an existing service the client port has the spec's number and the object owns it |
| AccessService.PortsAgree | pkg/controller/etcdcluster/service/service.go:96-118 | the service forwards to the port every node listens on, and the advertised client URL uses the service's own name and port |
| AccessService.ServesVoters | pkg/controller/etcdcluster/service/service.go:89-94 | whatever the existing selector, the service reaches only templates labelled as voters; a new service reaches exactly those of the cluster |
| AccessService.LearnersUnreachable | pkg/controller/etcdcluster/service/service.go:93-94 | in every run of the scaling protocol the service does not reach a template whose member etcd counts as a learner |
| AccessService.Service.ApplyAccessService | pkg/controller/etcdcluster/service/service.go:82-133 | the in-place edits amount to the specification, and fail exactly for an unknown provider |
| AccessService.Service.ApplyClientPort | pkg/controller/etcdcluster/service/service.go:96-118 | index map and update pick the last port of that name |
| AccessService.Service.ApplyTo | pkg/controller/etcdcluster/service/loadbalancer/providers/tke/clb.go:70-86 | in-place form of both providers |
| AccessService.Service.SetEtcdOwnerReference | pkg/controller/controller_utils.go:34-57 | the in-place loop replaces the first match or appends |
| AccessService.GetUpdateAccessService | pkg/controller/etcdcluster/service/service.go:136-142 | an edited copy or the error |
| AccessService.EnsureAccessService | pkg/controller/etcdcluster/etcd.go:457-468 | no error exactly if the provider is known and nothing had to change or the update went through; without an error the wanted service is stored, and a later pass has nothing to send |
| Validation.AcceptedIsAdmitted | pkg/validation/validation.go:39-71 | a spec is accepted if and only if Size is 1 to 7, there is at most one learner and it passes its check, the version is readable and no certificate is doubled; so the bounds the protocol needs hold |
| Validation.SpecErrorsExact | pkg/validation/validation.go:39-71 | each error of a new object appears exactly under its condition |
| Validation.LearnerCheckExact | pkg/validation/validation.go:65-70 | the check accepts every existing ordinal; what it accepts is one if and only if the string is the plain decimal of a non-negative 32-bit number |
| Validation.DecimalLearners | pkg/validation/validation.go:65-69 | decimals are judged by their low 32 bits: exact below 2^31, always accepted from there to 2^32 |
| Validation.StrayLearnersAccepted | pkg/validation/validation.go:65-69 | concrete accepted strings that name no ordinal |
| Validation.AtoiDecimal | pkg/validation/validation.go:65-65 | a printed ordinal reads back as itself |
| Validation.AtoiForms | pkg/validation/validation.go:65-65 | signs and leading zeros are read |
| Validation.AtoiErrors | pkg/validation/validation.go:65-66 | anything else is an error |
| Validation.Int32Exact | pkg/validation/validation.go:68-68 | the conversion keeps the low 32 bits |
| Validation.UpdateAcceptedExact | pkg/validation/validation.go:77-108 | an update passes if and only if the new object does, version and volume are kept, and no recorded voter is named as learner |
| Validation.UpdateErrorsExact | pkg/validation/validation.go:77-108 | each error of an update appears exactly under its condition |
| Validation.VoterCheckExact | pkg/validation/validation.go:95-105 | for any cluster name, ordinal i is refused as a voter if and only if the list records exactly that ordinal as Leader or Follower |
| Validation.VoterCheckInEveryRun | pkg/validation/validation.go:95-105 | the same for the list recorded in any reachable state of the scaling protocol |

## Left out

- Kubernetes and etcd client traffic, informers, work queue, leader election, metrics, logging, timers and sleeps: reads and calls appear as steps that may fail.
- Creation of the TApp and the bootstrap of its first member (`ensureTApp`): runs of the protocol start right after it.
- Deletion of a cluster, pausing, the status phase and the load-balancer status poll: small case tables without interaction with the rest.
- X.509, RSA and PEM: a certificate is an identity with a signer; key usages, SANs and lifetimes do not occur.
- Version syntax and order: `Validation` takes both as given functions.
- The headless service, the admission HTTP handler and JSON patches.
- Pod details without logic (probes, image, init container, affinity, resources, environment): one opaque value per template, copied by the refresh. TLS volumes are in `TlsMounts` and not in the template value.
- Sharing of Go maps: the default template uses the label map of the EtcdCluster object itself, so building a seed for learner 0 also changes that object in memory; the model copies values.
- Volume claims that outlive a crash between the TApp write and their deletion: the code leaves them, and the model shows only that no live claim is deleted.
- Fairness: `Progress` counts undisturbed passes with ready pods; that such passes come about is not promised by the code and not claimed.
- ScalingTheorems.ClaimsOfLiveOrdinals: claims are deleted in the model without the ownership test of the code, so more deletions happen in the model than in the system.
- Promotion in the protocol: it may pick any learner; which one the code picks is in the contract of `Reconciler.EnsureLearner`.
- Reconciler.World.UpdateStatus: the writes of the status phase and of the load-balancer status are not steps; the pass goes on with the object that they return, so they outdate nothing. What an end of pausing writes is one of the foreign writes (`Protocol.Touch`).
- MemberStatus.SortByName: insertion sort, as the Go library uses on slices of at most twelve elements; for longer lists only the stated contract carries over.
- Reconciler.FindByPeerURL: the member list is searched in joining order; etcd's own order does not matter because URLs are distinct.
- Runner.ClusterRunner.Step: the tickers may fire at any time; how often is not modelled.
- Certificates.EnsureCert: the external CA secret's content is whatever was stored; an unreadable one makes the pass fail, where the code would panic on text that is not PEM.
