# Verified models of kube-rs

kube-rs is a Kubernetes client and controller runtime. Most of it is input and output; at its core are
a handful of small protocols and transformations whose guarantees hold across many calls, many clients
and every order of events. This project models those and proves the guarantees.

`dafny verify dfyconfig.toml` checks everything.

| files | what they model |
|---|---|
| `Finalizer.dfy`, `JsonPatch.dfy` | controllers that hold back an object's deletion with finalizers, from stale snapshots |
| `Watcher.dfy`, `Wait.dfy` | the list-and-watch state machine against a growing server log, and waiting for a deletion |
| `Schema.dfy`, `SchemaRewriter.dfy`, `SchemaNormalForm.dfy`, `SchemaMeaning.dfy`, `SchemaUntagged.dfy` | the structural schema rewriter, with a semantics of JSON Schema |
| `PortForward.dfy`, `PortForwardTheorems.dfy` | the port-forward multiplexer under every interleaving of its senders |
| `Scheduler.dfy`, `Runner.dfy` | the delay-and-deduplicate scheduler, the map of running futures, and the runner that drives both |
| `Entry.dfy` | optimistic read-modify-write through `Api::entry` |
| `Version.dfy`, `Discovery.dfy`, `DiscoveryCache.dfy` | version priority, parsing of resource lists, cached against direct lookup |
| `Kubeconfig.dfy` | merging kubeconfig files and loading from the result |

Protocols (finalizers, watching, entries) are state machines: a step relation that includes the API
server, other clients and users, and theorems about every reachable state of every run. Code that
changes state in place (scheduler, future map, runner, entry, discovery run) is modelled by classes and
methods whose contracts tie the new state to a specification function; loops over values (schema
rewriter, forwarder, parsing, merging) are methods proved equal to a recursive function, and the
theorems are about that function.

## What the proofs found

- **Finalizers.** The documented guarantee holds for any number of controllers with distinct names, in
  every interleaving. It does not say that no Apply starts after a Cleanup: with a snapshot older than
  one already acted on, Apply can start after the object is gone (`StaleSnapshotCanApplyAfterGone`). It
  happens exactly when the controller acts on a live snapshot after its Cleanup
  (`ApplyFollowsCleanupIff`), and never with snapshots in order (`NoApplyAfterCleanup`). The very first
  finalizer can only be added on a server that lets `null` match an absent member, which section 4.6 of
  RFC 6902 does not ask for (`FreshPatchPasses`).
- **Schema rewriter.** Meaning is preserved for tagged and plain enums. For untagged enums it is not, in
  three ways: a field of a variant the value is *not* an instance of is now checked
  (`UntaggedCanLoseValues`); next to an object variant, every variant that is not an object loses all its
  values (`NonObjectVariantIsLost`); and closed variants become open (`ClosedVariantsOpenUp`). `UntaggedLoss`
  and `UntaggedGain` say exactly which values are lost and gained, and `AfterIsExact` which are valid
  after the whole visitor, with untagged enums at any depth and any branches.
- **Deletion.** `delete_and_finalize` is right because `watch_object` lists with `MostRecent`. With `Any` it
  can return while the object is still stored (`CachedListMissesObject`).
- **Entry.** A commit cannot overwrite an unseen change as long as the object's resource version is left
  alone. If the caller drops it or sets another one, it can (`DroppedVersionLosesUpdate`), and
  `CommitCanLoseIffExposed` says for which versions.
- **Runner.** It decides whether futures are running before it starts new ones, so when the request stream
  has ended it can report that it has finished while a future started in the same poll has not
  (`FinishesWhileRunning`). `Runner.PollNext` gives the exact condition: nothing is left running if and
  only if the stream had already ended when the poll first looked at it.
- **Kubeconfig.** The first file wins, also when its entry is empty: a name without contents hides a later
  definition (`EmptyEntryShadows`). Bracketing does not change whether a merge succeeds or what it gives, but
  can change which mismatch is reported (`BlameDiffersIff`).
- **Discovery.** `parse_apicapabilities` and `GroupVersionData::new` cannot fail on names taken from the list,
  and `GroupVersion::from_str` cannot fail at all: splitting in at most two never gives the third case.
- **Watcher.** The documentation says that a watch which cannot be resumed because its version is no longer
  valid starts over with a new listing. The code does so only for an error item with code 410 inside a
  stream (`RelistsOnlyOnExpiry`). A start that the server refuses with an HTTP status, 410 included, is not
  seen as refused: the stream opens, yields the error response as a stream error, ends, and the client
  tries the same version again, as long as that goes on (`RefusalsNeverRelist`). The model follows the code.

## Model

| member | source | states |
|---|---|---|
| Finalizer.FindIndex | kube-runtime/src/finalizer.rs:36-46 | finds the first occurrence of the finalizer name, and nothing exactly when the name is absent |
| Finalizer.SendsIff | kube-runtime/src/finalizer.rs:112-199 | which objects each case of the match is for: a patch goes out exactly for named objects that are to be kept and lack the name or are to go and have it, and the other cases likewise |
| Finalizer.RemovalEffect | kube-runtime/src/finalizer.rs:131-148 | on any stored list, however stale the index, the removal patch takes out exactly the occurrence it tested for or fails as a whole |
| Finalizer.AdditionEffect | kube-runtime/src/finalizer.rs:156-188 | the addition patch appends the name exactly when the stored list is still the one in the snapshot, and fails otherwise |
| Finalizer.PatchTouchesOnlyOwnName | kube-runtime/src/finalizer.rs:112-199 | from any snapshot and on any list a patch fails or changes only its own name: others keep order and multiplicity, duplicate-freedom is kept, nothing is added twice |
| Finalizer.FreshPatchPasses | kube-runtime/src/finalizer.rs:131-188 | a patch built from the current list passes its tests, except for a first finalizer on a server that refuses to test an absent member (if and only if) |
| Finalizer.RunKeepsInvariant | kube-runtime/src/finalizer.rs:112-199 | in every reachable state a controller name once stored is still stored or its cleanup has succeeded, and only such controllers have removals in flight |
| Finalizer.CleanupBeforeGone | kube-runtime/src/finalizer.rs:73-79 | the documented guarantee over all runs: if a controller's Apply ever started, its own Cleanup succeeded before the deletion completed |
| Finalizer.ListStaysDuplicateFree | kube-runtime/src/finalizer.rs:167-181 | over every run no stored version lists a finalizer twice, if users do not write duplicates |
| Finalizer.ApplyFollowsCleanupIff | kube-runtime/src/finalizer.rs:112-116 | in every run, up to every point: an Apply of a controller starts after one of its Cleanups succeeded if and only if after such a Cleanup it acts on a stored version that is not being deleted and lists its name |
| Finalizer.NoApplyAfterCleanup | kube-runtime/src/finalizer.rs:58-71 | with snapshots acted on in order that condition never arises, so no Apply of a controller starts after its Cleanup succeeded |
| Finalizer.StaleSnapshotCanApplyAfterGone | kube-runtime/src/finalizer.rs:112-119 | a run in which an old snapshot makes Apply start after the object is gone |
| Finalizer.SharedNameLosesCleanup | kube-runtime/src/finalizer.rs:77-79 | for every list in which two controllers share a name: a run in which one applies, only the other cleans up, and the object goes |
| Finalizer.GuaranteeIffDistinct | kube-runtime/src/finalizer.rs:73-79 | the uniqueness assumption is exact: the guarantee holds at every point of every run if and only if all names differ |
| Finalizer.TakesHold | kube-runtime/src/finalizer.rs:59-63 | the documented flow, from every run whose object is live and lacks the controller's name: the controller's own steps append the name to the stored list and start Apply |
| Finalizer.LetsGo | kube-runtime/src/finalizer.rs:68-71 | from every run whose object is being deleted and lists the controller's name: the controller's own steps clean up, take the first occurrence off, and with the last name the object goes |
| Watcher.Step | kube-runtime/src/watcher.rs:475-491 | the loop hands over the first output the replies produce, with the state after it, and consumes no reply beyond it |
| Watcher.RunKeepsInvariant | kube-runtime/src/watcher.rs:371-472 | in every reachable state each event continues the log prefix of the event before it, or restarts with a faithful listing |
| Watcher.ReplicaIsSnapshot | kube-runtime/src/watcher.rs:41-56 | folding all events gives exactly the server's contents at the tracked version while one is tracked, and one single past snapshot otherwise |
| Watcher.EventsAreLogSegment | kube-runtime/src/watcher.rs:400-471 | between restarts the events are exactly the changes of the server log after the version that the list reply carried, up to the version of the last event and, while a version is tracked, exactly up to it: no gap, no repeat |
| Watcher.RestartsComeFromLists | kube-runtime/src/watcher.rs:380-390 | in every run each restart was made from a list reply, received at some earlier step, with exactly its objects and the version from which the previous row counts |
| Watcher.RelistsOnlyOnExpiry | kube-runtime/src/watcher.rs:419-470 | in every run a client that tracks a version goes back to listing if and only if an open stream delivers an error item with code 410 |
| Watcher.RefusalsNeverRelist | kube-runtime/src/watcher.rs:400-470 | in every run, while a client that tracks a version gets only failed requests, opened and ended streams, stream errors of any status and error items other than 410, it keeps that version and hands over no event |
| Watcher.StreamRepliesNeedAWatch | kube-runtime/src/watcher.rs:400-470 | in every run each stream reply comes from a stream that was opened before and has neither ended nor expired since; so after a stream end nothing comes in until the client has watched again |
| Watcher.ErrorsAreFailures | kube-runtime/src/watcher.rs:380-470 | in every run the consumer gets exactly the failures that happened, each as the error of its own kind, in order |
| Watcher.TracksLatestVersion | kube-runtime/src/watcher.rs:383-440 | in every run the tracked version is the last that came in, with a listing, a change or a bookmark |
| Watcher.RestartBefore | kube-runtime/src/watcher.rs:380-399 | every event has a restart at or before it, so the previous statement covers every event |
| Watcher.QuorumListsNeverGoBack | kube-runtime/src/watcher.rs:292-308 | with the default list semantic the log prefixes that events stand for never shrink and never predate the start of the watch |
| Wait.AwaitFinds | kube-runtime/src/wait.rs:50-68 | a wait that succeeds ended on the first observation satisfying the condition, with no error before it |
| Wait.AwaitFails | kube-runtime/src/wait.rs:62-66 | a wait that fails does so on the first error, with nothing before it to satisfy the condition |
| Wait.AwaitGoesOn | kube-runtime/src/wait.rs:54-58 | a wait goes on exactly as long as there was neither an error nor a satisfying observation |
| Wait.DeleteOutcomes | kube-runtime/src/wait.rs:299-317 | a failed call, a reply without a uid and a failed wait have their own errors; the call goes on exactly as long as the object with the uid is seen, and success needs an observation without it |
| Wait.ObservedIsStored | kube-runtime/src/watcher.rs:624-639 | every event of the watch on one name is an observation, never too many objects, and reports what the server stored under the name at that point of the log |
| Wait.GoneForever | kube-runtime/src/wait.rs:176-185 | once an object with a uid has been stored and is no longer, no later state stores that uid |
| Wait.DeletionIsReal | kube-runtime/src/wait.rs:299-317 | when `delete_and_finalize` returns Ok for a uid that was stored, no object with it exists then or at any later moment |
| Wait.CachedListMissesObject | kube-runtime/src/watcher.rs:624-639 | with the `Any` list semantic there is a run that returns Ok while the object is stored |
| SchemaRewriter.MoveProperties | kube-core/src/schema.rs:136-152 | a variant's properties join the root's, or the pass panics exactly when a shared name has two definitions |
| SchemaRewriter.HoistSubschemaProperties | kube-core/src/schema.rs:107-160 | the loop over variants computes the recursive hoisting function, panics included |
| SchemaRewriter.HoistSubschemaEnumValues | kube-core/src/schema.rs:73-103 | the `retain` loop computes the recursive gathering function, panics included |
| SchemaRewriter.VisitRoot | kube-core/src/schema.rs:35-65 | the three rewriting stages, in order, on a schema whose children were visited |
| SchemaRewriter.VisitSchemaObject | kube-core/src/schema.rs:32-66 | the whole visitor on a schema object is the recursive rewriting function the theorems are about |
| Schema.CountOne | kube-core/src/schema.rs:36-46 | the semantics of `oneOf`: exactly one branch is valid if and only if some branch is and every other is not |
| SchemaNormalForm.PassGivesNormalForm | kube-core/src/schema.rs:32-66 | after a pass that does not panic, at every depth no object branch keeps properties, additional properties, a type or a description, and no `oneOf` branch keeps enum values |
| SchemaNormalForm.NormalFormIsFixed | kube-core/src/schema.rs:32-66 | the rewriter changes no schema in normal form and never panics on one |
| SchemaNormalForm.SecondPassChangesNothing | kube-core/src/schema.rs:32-66 | for every schema on which the pass does not panic, a second pass gives the same schema |
| SchemaNormalForm.NoPropertyIsLost | kube-core/src/schema.rs:105-160 | every property definition of the root and of its object branches is a definition of the result, up to the moved description |
| SchemaMeaning.SupportedNeverPanics | kube-core/src/schema.rs:24-27 | the pass never panics on structs, lists, maps, tagged enums with distinct tags and plain enums, nested to any depth |
| SchemaMeaning.TaggedForward | kube-core/src/schema.rs:36-38 | a value of one tagged variant still matches exactly that one stripped branch and its hoisted definition |
| SchemaMeaning.TaggedBackward | kube-core/src/schema.rs:36-38 | a value with no undeclared fields that the rewritten enum accepts was a value of exactly that variant |
| SchemaMeaning.PlainEnumMeaning | kube-core/src/schema.rs:69-103 | a plain enum with disjoint values accepts the same values before and after |
| SchemaMeaning.FlattenedMeaning | kube-core/src/schema.rs:54-65 | turning `additionalProperties: true` into preserved unknown fields changes neither which values are valid nor which fields are declared |
| SchemaMeaning.MeaningPreserved | kube-core/src/schema.rs:32-66 | for every supported schema and every JSON value: valid before implies valid after, and valid after without undeclared fields implies valid before |
| SchemaMeaning.KnownStaysDeclared | kube-core/src/schema.rs:17-19 | for every supported schema: a valid value whose fields the schema, or the variant it is an instance of, all knew has no undeclared field after the pass, so nothing known is pruned |
| SchemaMeaning.DescriptionsMove | kube-core/src/schema.rs:122-134 | a variant's description becomes that of its definition, which is otherwise as the variant had it |
| SchemaMeaning.SharedDescriptionIsDropped | kube-core/src/schema.rs:125-127 | a branch without exactly one definition gives its description to none of them |
| SchemaUntagged.AnyOfMeaning | kube-core/src/schema.rs:107-160 | hoisting out of `anyOf`, for every schema on which it does not panic and every value: valid after exactly if the type and definitions of the root and of every object branch are met and what is left of some branch is met |
| SchemaUntagged.UntaggedMeaning | kube-core/src/schema.rs:48-51 | an untagged enum with any branches: without an object branch nothing changes; with one, valid after exactly if the value has the type and fits the definitions of every object branch and meets what is left of some branch |
| SchemaUntagged.UntaggedLoss | kube-core/src/schema.rs:136-157 | of the values valid before, exactly those are lost that the type or the definitions of some object branch refuse |
| SchemaUntagged.UntaggedGain | kube-core/src/schema.rs:154-155 | of the values valid after, exactly those were invalid before that are let in only by branches which shut out other fields |
| SchemaUntagged.AfterIsExact | kube-core/src/schema.rs:32-66 | the whole visitor, with untagged enums nested anywhere: a value is valid after exactly if a predicate on the original schema holds, which needs no rewriting; so for its type, its definitions and the rest separately |
| SchemaUntagged.SupportedAfter | kube-core/src/schema.rs:32-66 | on supported schemas that predicate is validity before, up to undeclared fields |
| SchemaUntagged.UntaggedMeaningVisited | kube-core/src/schema.rs:32-66 | the whole visitor on an untagged enum of any covered branches: exactly which values it accepts, which it loses and which it gains against its branches rewritten on their own |
| SchemaUntagged.UntaggedForward | kube-core/src/schema.rs:32-66 | a value valid before that fits the original types and definitions of all branches is valid after |
| SchemaUntagged.UntaggedBackward | kube-core/src/schema.rs:32-66 | a value valid after with nothing undeclared fits the original types and definitions of all branches and takes one of them |
| SchemaUntagged.OpenUntaggedVisited | kube-core/src/schema.rs:32-66 | for open object variants, up to undeclared fields: valid after exactly if valid before and fitting every variant |
| SchemaUntagged.UntaggedCanLoseValues | kube-core/src/schema.rs:136-152 | two variants with one string field each: a value lost because of the other variant's definition |
| SchemaUntagged.NonObjectVariantIsLost | kube-core/src/schema.rs:157-187 | next to an object variant every value of a string variant is lost |
| SchemaUntagged.ClosedVariantsOpenUp | kube-core/src/schema.rs:154-155 | two closed variants: a value with the fields of both is invalid before and valid after, with nothing undeclared |
| PortForward.CheckPorts | kube-core/src/subresource.rs:380-400 | the request is accepted exactly for 1 to 128 ports without repetition; each refusal has its own error, and a reported duplicate is one |
| PortForward.ChannelsDoNotCollide | kube-client/src/api/portforward.rs:177-182 | with at most 128 ports the 8-bit channel numbers do not wrap, and channel and port determine each other |
| PortForward.ToPodLoop | kube-client/src/api/portforward.rs:191-215 | a reader loop sends its non-empty chunks in order under its channel and then one close |
| PortForward.FromPodLoop | kube-client/src/api/portforward.rs:217-254 | the socket loop sends the payloads of binary messages longer than one byte, and stops at a close |
| PortForward.ForwarderLoop | kube-client/src/api/portforward.rs:257-355 | the loop over its local variables is the fold of one-message steps, up to the first error |
| PortForwardTheorems.InterleavingIsWellSent | kube-client/src/api/portforward.rs:161-189 | in every queue that keeps each sender's order, readers use only their own even channels and say nothing after their close |
| PortForwardTheorems.CloseIsLastAndComplete | kube-client/src/api/portforward.rs:329-353 | over all interleavings `closed_ports` counts the shut data channels and the Close frame is out exactly when every port is closed; errors included, it is the last frame and only out if every port was closed |
| PortForwardTheorems.IncomingIsReceived | kube-client/src/api/portforward.rs:217-254 | what came in on a channel is the beginning of what the socket received on it, in every interleaving |
| PortForwardTheorems.PortsAreIsolated | kube-client/src/api/portforward.rs:274-353 | over all interleavings each port's stream got exactly its own payloads, as the socket received them, after an introduction that is the port's two bytes and before its close, is shut exactly once its reader or the pod is done, got no byte after that, its one error message, and its frames carry what its reader read, in order and in the end completely |
| PortForwardTheorems.PodCloseIsPassedOn | kube-client/src/api/portforward.rs:217-254 | a close of the pod is in the queue only if the socket received one, and is there once the socket's reader has put in everything |
| PortForwardTheorems.ErrorIsFirstFailure | kube-client/src/api/portforward.rs:274-353 | the forwarder fails exactly when an entry is wrong, said of the queue alone, and with the error of the first such entry |
| PortForwardTheorems.ForwardsIffWellIntroduced | kube-client/src/api/portforward.rs:279-301 | while input and output work, every interleaving is forwarded without an error if and only if the pod uses only the ports' channels and introduces each with its port's two bytes |
| Scheduling.EarliestIsLeast | kube-runtime/src/scheduler.rs:188-197 | the specified instant is the least one requested and is one of them |
| Scheduling.WantedIsSince | kube-runtime/src/scheduler.rs:188-197 | the one-map specification holds a message exactly when it was requested since its last emission, with the first submitted payload and the earliest requested instant |
| Scheduling.RequestedIsWantedOrEmitted | kube-runtime/src/scheduler.rs:152-158 | after a request its message is wanted or has been emitted since, in every history |
| Scheduling.Scheduler.ScheduleMessage | kube-runtime/src/scheduler.rs:58-83 | scheduling keeps queue, metadata and pending set in agreement with the specification after the request |
| Scheduling.Scheduler.RemoveExpired | kube-runtime/src/scheduler.rs:97-103 | an expired queue entry always has its metadata, so the `expect` cannot fail, and both go together |
| Scheduling.Scheduler.TakeDue | kube-runtime/src/scheduler.rs:95-110 | the pop loop ends because the queue shrinks, hands out one due allowed message or leaves none due in the queue |
| Scheduling.Scheduler.PopQueueMessage | kube-runtime/src/scheduler.rs:86-110 | hands out an allowed message that is due, with its first submitted payload, or nothing exactly because no message is both due and allowed |
| Scheduling.Scheduler.PollNext | kube-runtime/src/scheduler.rs:127-144 | takes in all requests, ends exactly when their stream does, emits nothing early, and is pending only if nothing due is allowed |
| Running.FutureHashMap.Insert | kube-runtime/src/controller/future_hash_map.rs:36-38 | the map gains the future and the displaced one is returned |
| Running.FutureHashMap.PollNext | kube-runtime/src/controller/future_hash_map.rs:53-71 | removes one finished future if there is one, ends exactly when empty, and otherwise changes nothing and none has finished |
| Running.NothingIsLost | kube-runtime/src/controller/runner.rs:19-24 | every message ever requested is wanted by the scheduler, running, or has completed since that request |
| Running.EmissionShrinks | kube-runtime/src/controller/runner.rs:104-132 | taking a message makes the set of wanted messages smaller, which is why the runner's loop ends |
| Running.Runner.StartMessage | kube-runtime/src/controller/runner.rs:113-120 | the insert never displaces a running future, so the assertion cannot fail, and what was started is accounted for |
| Running.Runner.PullAll | kube-runtime/src/controller/runner.rs:104-132 | the loop says that the stream ended only if it did, leaves nothing that could be started otherwise, and when the stream ends it has started nothing exactly if it had ended at the first poll |
| Running.Runner.PollNext | kube-runtime/src/controller/runner.rs:84-133 | a running future stays under its key until its completion is reported; starts equal completions plus running; while requests are open the runner waits only if no due message could be started; when it reports that it has finished, nothing runs if and only if the request stream had ended when first polled, that is if and only if nothing was started in that poll |
| Running.FinishesWhileRunning | kube-runtime/src/controller/runner.rs:91-128 | for any message: a poll that reports that the runner has finished and leaves a future running |
| Entry.PrepareFits | kube-client/src/api/entry.rs:213-245 | preparation succeeds exactly for objects of the slot and changes only name and namespace |
| Entry.PrepareRefuses | kube-client/src/api/entry.rs:219-243 | which object is refused with which error, in the order of the checks |
| Entry.OccupiedEntry.AndModify | kube-client/src/api/entry.rs:146-161 | a modification marks a clean entry dirty and leaves dirty and new ones as they are |
| Entry.OccupiedEntry.PrepareForCommit | kube-client/src/api/entry.rs:213-245 | defaults and checks in the order of the code, including what is already defaulted when a later check fails |
| Entry.OccupiedEntry.Commit | kube-client/src/api/entry.rs:182-208 | creates new objects, replaces dirty ones, skips clean ones, and clears the dirtiness only after a real success |
| Entry.RunKeepsInvariant | kube-client/src/api/entry.rs:168-208 | in every reachable state an entry whose version was left alone carries the version of the object it was derived from, and versions identify objects |
| Entry.NoLostUpdate | kube-client/src/api/entry.rs:168-180 | in every interleaving with other writers and dry runs a successful commit with its version left alone was derived from exactly what it replaced |
| Entry.CounterAddsUp | kube-client/src/api/entry.rs:168-208 | over every run of entry clients the counter is its start plus the sum of what the successful commits meant to add |
| Entry.IncrementsAddUp | kube-client/src/api/entry.rs:168-208 | N successful increments raise a counter by exactly N |
| Entry.DroppedVersionLosesUpdate | kube-client/src/api/entry.rs:195-201 | a run in which a commit with a dropped version overwrites another client's increment |
| Entry.CommitCanLoseIffExposed | kube-client/src/api/entry.rs:182-208 | in every reachable state, some continuation commits a dirty entry over a change it does not follow from if and only if the entry's version is not that of its base and is none, the stored one, or one not handed out yet |
| Entry.CleanHasNothingUnsaved | kube-client/src/api/entry.rs:204-206 | in every reachable state a clean entry holds what was last read or saved |
| Entry.ModifiedIsCommitted | kube-client/src/api/entry.rs:182-208 | after a modification, however many dry runs of the entry and steps of others follow, a real commit that returns no error writes exactly that change, once |
| Versions.ParsePrinted | kube-core/src/version.rs:65-101 | parsing a version as Kubernetes writes it gives that version, for all numbers that fit 32 bits |
| Versions.ParsesIff | kube-core/src/version.rs:65-88 | exactly which strings are conformant and as which version they are read |
| Versions.PriorityIsTotal | kube-core/src/version.rs:113-187 | any two versions compare, and they tie exactly when they are equal |
| Versions.LeqTransitive | kube-core/src/version.rs:121-128 | the priority order is transitive |
| Versions.StabilityComesFirst | kube-core/src/version.rs:156-159 | stable beats beta beats alpha beats nonconformant, whatever the numbers |
| Versions.NewerComesFirst | kube-core/src/version.rs:121-128 | within one kind of release a larger major outranks a smaller one, then a larger minor, then any minor over none |
| Versions.TextsGoAlphabetically | kube-core/src/version.rs:156-159 | of two nonconformant texts the alphabetically first outranks the other, and only it |
| Versions.SortSorts | kube-client/src/discovery/apigroup.rs:118-121 | sorting gives a permutation in descending priority |
| Versions.SortIsStable | kube-client/src/discovery/apigroup.rs:118-121 | elements of equal priority keep their order |
| Discovery.ApiVersionRoundTrip | kube-core/src/gvk.rs:80-110 | reading back an apiVersion gives group and version exactly when the group (or, without a group, the version) has no slash |
| Discovery.ParseApiCapabilities | kube-client/src/discovery/parse.rs:30-60 | the loop with its recursion computes the recursive parse, and it ends because subresource names grow up to the longest in the list |
| Discovery.CapabilitiesTotal | kube-client/src/discovery/parse.rs:27-35 | parsing fails exactly for a name that is not in the list, at any depth of subresources |
| Discovery.SubresourceNames | kube-client/src/discovery/parse.rs:42-54 | a resource's subresources are exactly the list's names below it, in order |
| Discovery.ParsedResourceFields | kube-client/src/discovery/parse.rs:12-25 | a resource's own group and version win over those of its list, and it has the list's apiVersion, its kind and its name |
| Discovery.CapabilitiesAreTheFirst | kube-client/src/discovery/parse.rs:31-40 | scope and operations are those of the first listed resource of the name |
| Discovery.SubresourcesAreListed | kube-client/src/discovery/parse.rs:42-54 | each subresource is, at its place, the listed resource below the name, under its short name and with its own capabilities |
| DiscoveryCache.NewGroupVersionData | kube-client/src/discovery/parse.rs:72-87 | every resource that is not a subresource is parsed, in order, and no error path is ever taken |
| DiscoveryCache.FetchGroup | kube-client/src/discovery/apigroup.rs:79-116 | a group's data is the parse of each served version in order of priority, or the first failure |
| DiscoveryCache.Discoverer.Run | kube-client/src/discovery/mod.rs:111-130 | whatever was cached before, a successful run leaves exactly the queryable groups as served now; a failure is the first one met |
| DiscoveryCache.ParsedLookup | kube-client/src/discovery/apigroup.rs:134-143 | looking a kind up in parsed data is the direct lookup in the list it was parsed from |
| DiscoveryCache.CacheAgreesWithServer | kube-client/src/discovery/mod.rs:164-169 | for every conforming server and queryable group, cached and direct lookup of any kind give the same resource and capabilities, or fail together |
| DiscoveryCache.UnqueryableIsUnresolved | kube-client/src/discovery/mod.rs:24-29 | a group that the mode shuts out is never resolved |
| DiscoveryCache.CachesExactly | kube-client/src/discovery/mod.rs:23-30 | the cache holds exactly the listed groups and the core group that the allow or block list lets through |
| DiscoveryCache.RunSucceeds | kube-client/src/discovery/mod.rs:111-130 | against a conforming server a run fails exactly when a queryable group serves no version |
| DiscoveryCache.RepeatedGroupIsForgotten | kube-client/src/discovery/mod.rs:115-121 | a group listed twice loses the earlier listing's kinds from the cache, so listing each group once is needed |
| DiscoveryCache.VersionsDescend | kube-client/src/discovery/apigroup.rs:174-183 | a fetched group has at least one version, and its versions are those served, in descending priority |
| DiscoveryCache.FetchedGroupIsNamed | kube-client/src/discovery/apigroup.rs:79-116 | a fetched group keeps its name and preference, the core group prefers v1, and a group without versions is refused by name |
| DiscoveryCache.ResourcesByStability | kube-client/src/discovery/apigroup.rs:264-281 | exactly one entry per kind, of maximal priority among all entries of the kind, the first listed among equals |
| Kubeconfigs.AppendNewNamed | kube-client/src/config/file_config.rs:461-472 | the base followed by the entries with names new to the base |
| Kubeconfigs.Merge | kube-client/src/config/file_config.rs:430-447 | field by field the first value wins; mismatched kinds are reported before mismatched API versions |
| Kubeconfigs.DefaultIsIdentity | kube-client/src/config/file_config.rs:430-447 | the default configuration is an identity on both sides |
| Kubeconfigs.MergeAssociates | kube-client/src/config/file_config.rs:430-447 | both bracketings of any three configurations succeed together and give the same result |
| Kubeconfigs.BlameDiffersIff | kube-client/src/config/file_config.rs:431-436 | exactly when the two bracketings report different mismatches, in terms of which kinds and API versions conflict |
| Kubeconfigs.BracketingChangesBlame | kube-client/src/config/file_config.rs:431-436 | three configurations for which they do |
| Kubeconfigs.MergeAllOfConcat | kube-client/src/config/file_config.rs:378-382 | merging two series of documents is merging the two merged results |
| Kubeconfigs.RelocatedMergeAll | kube-client/src/config/file_config.rs:333-368 | making paths absolute before or after merging comes to the same, errors included |
| Kubeconfigs.OnlyPathsAreLocated | kube-client/src/config/file_config.rs:335-362 | each path is made absolute on its own if it has an absolute form, and nothing else changes |
| Kubeconfigs.EmptyNamesAreIgnored | kube-client/src/config/file_config.rs:401-406 | empty names in the variable are ignored wherever they stand, and no others |
| Kubeconfigs.ReadFrom | kube-client/src/config/file_config.rs:327-372 | reading a file gives what `from_yaml` gives on its documents, with the same error, and with absolute paths |
| Kubeconfigs.FilesAreOneStream | kube-client/src/config/file_config.rs:408-411 | reading many files is merging all their documents as if in one file; it fails exactly when a file is missing or that merge fails |
| Kubeconfigs.MergedLookups | kube-client/src/config/file_config.rs:421-429 | every lookup in the merged configuration is answered by the first entry of the first document that has one |
| Kubeconfigs.MergedFields | kube-client/src/config/file_config.rs:438-445 | preferences, extensions, kind and API version are those of the first document that has them |
| Kubeconfigs.LoadResolvesInFirstDocument | kube-client/src/config/file_loader.rs:56-98 | loading from merged documents equals loading straight from the documents, first definition first, in every success and every error |
| Kubeconfigs.LoadFromEnv | kube-client/src/config/file_config.rs:398-416 | from the `KUBECONFIG` paths to the loaded context, cluster and user: the documents in order decide, whatever the file boundaries |
| Kubeconfigs.EmptyEntryShadows | kube-client/src/config/file_loader.rs:70-75 | a named entry without contents hides every later definition and makes loading fail |

## Left out

- HTTP, TLS, authentication, the WebSocket handshake, YAML and JSON decoding, URL building: input and output around the modelled logic; failures of requests are replies or missing map entries.
- `kube-core/src/duration.rs`, the event recorder, admission and conversion reviews, the derive macro, remote command execution: easy members or mostly input and output.
- `reflector/store.rs`, stream back-off, `EventFlatten`, condition combinators: thin; the store is modelled only as the fold documented on `Event`.
- `Version::generation`, `preferred_version_or_latest`, `recommended_kind`, `query_gv`: would only add members as easy as their bodies.
- Finalizer name reuse: one incarnation of the object is modelled; users who strip a controller's finalizer are outside the documented assumptions. JSON pointers are structured paths, not strings, and cover the three shapes the helper builds.
- Finalizer.ListStaysDuplicateFree: assumes that users do not write a duplicate themselves.
- Watch items that fail to decode: an error item is assumed to consume no log entry, and a bookmark to come after all earlier events. Nothing is claimed about progress of `step`. The effect of field and label selectors is that the log holds only matching changes; objects that enter or leave a selection are not modelled.
- Schema keywords outside `type`, `enum`, `oneOf`, `anyOf`, `properties`, `required`, `additionalProperties`, `items` (single schema) and `x-kubernetes-preserve-unknown-fields`: not modelled. `&mut` updates are returned values, so aliasing is not captured; a panic is the result `None`, and the half-changed schema it leaves is not modelled.
- SchemaMeaning.MeaningPreserved: covers the documented enum shapes. A plain enum whose values repeat across variants, or a tagged enum with a shared tag, is outside it.
- SchemaUntagged.AfterIsExact: covers untagged enums whose root says nothing besides `anyOf`; a root with fields or a type of its own next to `anyOf` is covered by AnyOfMeaning for the hoisting stage only.
- SchemaUntagged.UntaggedBackward: asks for nothing undeclared in the branches that define no fields as well, since declared fields of a schema are not looked for inside `anyOf`.
- PortForward.ForwarderLoop: when shutting the writers fails on a close from the pod, which writers were already shut is not modelled; the loop ends there. Flushing and buffering are not modelled, and neither is the order in which the loops are dropped at the end.
- Scheduling.Scheduler.PollNext: the delay queue is a map that yields any entry that is due; wake-ups are not modelled.
- Running.Runner.PollNext: the readiness future is asked until it resolves, as `Fuse` does; futures are numbers and completion is a parameter; the result of a future is not carried.
- Entry.NoLostUpdate: servers that skip a write without changes or mutate objects on admission are not modelled.
- DiscoveryCache.CacheAgreesWithServer: the server does not change during the run. Conformance asks for named, slash-free, once-listed groups and slash-free versions; whether versions repeat does not matter.
- Kubeconfigs.ReadFrom: the path arithmetic of `to_absolute` is a parameter; fields of clusters and users that neither merging nor loading looks at are dropped; preferences and extensions are opaque strings.
- Kubeconfigs.FilesAreOneStream: two failures may name different mismatches, since a file's own documents are merged first.
