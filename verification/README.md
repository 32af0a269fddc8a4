# The Hive: a verified model of its control plane

The Hive keeps its control plane in durable, lock-guarded documents. A locked section reads a
whole document, checks it, changes it and replaces it atomically, so each section is one step of
a state machine. External effects (starting a scope, calling an executor, storing a secret) are
steps of their own that may fail, and a crash may come between any two steps. This project models
those machines and one exact binary codec, and proves what they guarantee over every run.

How the files fit together:

- `Core.dfy` holds the outcome types and `dict.fromkeys`; `Tables.dfy` lists sorted by a unique reference.
- **Ollama journal**: `OllamaJournal.dfy` has the sections of the adapter as functions on the document
  and the adapter object; `OllamaProtocol.dfy` has all interleavings of many processes with crashes;
  `OllamaReading.dfy` says when the document can be read, `OllamaOrigins.dfy` where its entries come from, and
  `OllamaProcesses.dfy` that they name the processes that are live.
- **Admission**: `ScopePaths.dfy`, `Admission.dfy` (records, transition table, store), `AdmissionReserve.dfy` (exactly
  what is accepted), `AdmissionStore.dfy` (the two store objects), `AdmissionHistory.dfy` (one record over a run),
  `AdmissionRuntime.dfy`, `AdmissionRuntimeFences.dfy` and `AdmissionRuntimeObjects.dfy` (revalidation gate,
  executor, completion journal).
- **D73 Q1 record**: `Bytes.dfy`, `Q1Record.dfy` and `Q1RoundTrip.dfy` (codec), `Q1Binding.dfy` (what its digests
  bind), `Q1Capability.dfy` (one-shot descriptors), `IngressTransaction.dfy` (the nine-state transaction under
  re-entrant schedules), `IngressIdentity.dfy` (who and what it ends with),
  `Q1Materialize.dfy` (the write loop and what its result binds), `IngressReach.dfy` (runs through the whole
  chain), `IngressObjects.dfy` (the objects).
- **Host registry**: `Hosts.dfy`, `HostsReading.dfy` (strict reader, writer, migration), `HostsRuns.dfy` and
  `HostsSync.dfy` (each operation), `HostsHistory.dfy` (whole runs), `HostsCalls.dfy` (what calls check and leave),
  `HostRegistry.dfy` (the object).
- **Admin operations**: `Operations.dfy`, `OperationsRecords.dfy` (one record), `OperationsRuns.dfy` (runs
  with crashes between the two documents), `OperationsReports.dfy` and `OperationsOwners.dfy` (what stands behind
  steps, results and owners), `OperationStore.dfy` (the object).
- **Smaller machines**: `TelemetryHistory.dfy` with `TelemetryStore.dfy`, `Totp.dfy`, `SecretIngress.dfy` with
  `SecretIngressRights.dfy` and `SecretIngressOwner.dfy`, `Provisioner.dfy`, and the resolver in `Resolver.dfy`,
  `ResolverOffer.dfy`, `ResolverChoice.dfy`, `ResolverFallback.dfy` and `ResolverLoops.dfy`.

Every component has the same shape. A locked section is a function on values. An object whose methods
change fields in place is a class, and each method is proved equal to that function. A run is a
sequence of steps, and the theorems are invariants and histories over all runs. Digests, the
manifest grammar and plan digests are parameters, so the results hold for any hash.

Where the code does not keep what its own reader or its description asks for, the model follows the
code. The exact condition is a theorem, and a failing input is a lemma beside it:

- A commit writes a 65th running record, after which the journal can never be read or changed again
  (`ReadableExactly`, `UnreadableForever`, `CommitReadable`; the run is `SixtyFifthInstance`).
- `agent_capacity` is stored and never read; the rule is one active record per agent (`OneActivePerAgent`).
- A reservation makes the admission file unreadable exactly at 4096 records (`ReserveReloads`; `FullFileReserves`).
- Overlapping executions can call the executor after completion was recorded
  (`CompletionIsFinalUnlessInFlight`; `OverlapCallsAfterCompletion`).
- `close` sets CLOSED without testing the state again, so an abort that comes in after it was entered is
  overwritten: ABORTED is left exactly there (`OneStepAlongTheChain`; `AbortOverwritten`, `ReachOverwritten`).
- A capability whose descriptor now is another file is consumed without being closed (`ClosedUnlessLost`;
  `ReopenedStaysOpen`).
- The host reader accepts an empty ssh binding until the host is observed; an active probe then writes a
  document it refuses (`ActiveProbeReadable`; `ProbeOverEmptyBinding`).
- A thirty-third distinct reason code, or resuming an operation that was finished as reconciled with a
  resulting generation, writes an unreadable record (`MutateReadable`; `ThirtyThirdCode`, `ClaimedReconciliation`).
- A finished provisioning order is no longer answered with its receipt, but refused, exactly from the moment a second
  plan of its fingerprint is stored under another key (`FinishedAnswersForever`, `SingleSince`; `ReplannedIsRefused`).
- An offered tuple is refused or replaced exactly when its model is below the minimum rank of its class, its
  lifecycle is an alias, or its leadership class has more than the one persistent lifecycle
  (`OfferedCanBeHad`; `OfferedBelowMinimum`).

## Model

| member | source | states |
|---|---|---|
| OllamaProtocol.OneEntryPerInstance | src/the_hive/agent_ollama.py:159-274 | over every interleaving and crash, an instance has at most one entry among intents and running records |
| OllamaProtocol.LiveScopesNamed | src/the_hive/agent_ollama.py:159-274 | every started, not yet stopped scope is named by an intent or running record of its instance |
| OllamaProtocol.OneScopePerInstance | src/the_hive/agent_ollama.py:159-241 | two scopes of one instance are never live together, whatever crashed or was taken over |
| OllamaProtocol.OwnersNeverConflict | src/the_hive/agent_ollama.py:243-274 | a live thread that started, adopted or stopped a scope never finds its entry changed: its commit or finish succeeds if and only if the reader accepts the document |
| OllamaOrigins.EntriesTraced | src/the_hive/agent_ollama.py:131-274 | over every run each plan stands as planned, and each intent and running record has its unit and port from a claim of a then ready plan of the same instance and digest, made less than the maximal age after it was planned |
| OllamaOrigins.IntentsInTime | src/the_hive/agent_ollama.py:605-620 | every intent was created less than the maximal age after the plan of its reference |
| OllamaOrigins.LiveScopesInTime | src/the_hive/agent_ollama.py:159-241 | no scope is ever live but under a plan of its instance that was claimed in time |
| OllamaProcesses.RecordsNameProcesses | src/the_hive/agent_ollama.py:243-274 | over every run a running record whose scope is live names exactly that process, of that instance |
| OllamaProcesses.RecordsStay | src/the_hive/agent_ollama.py:392-542 | as long as a running record stands it changes only in claim and state, and its generation only rises |
| OllamaReading.ReadableExactly | src/the_hive/agent_ollama.py:622-780 | in every reachable world the reader accepts the document if and only if it lists at most 64 running records |
| OllamaReading.UnreadableForever | src/the_hive/agent_ollama.py:622-669 | once unreadable, the document never changes again, whatever runs |
| OllamaReading.SixtyFifthInstance | src/the_hive/agent_ollama.py:243-274 | a run, starting 65 instances one after the other, that ends in an unreadable document |
| OllamaProtocol.RaiseKeeps | src/the_hive/agent_ollama.py:392-443 | a section that cannot read the document hands over to its handler and keeps the invariant |
| OllamaProtocol.RunKeeps | src/the_hive/agent_ollama.py:131-620 | the invariant relating document, live scopes and every program counter holds in every reachable world |
| OllamaProtocol.ApplyKeeps | src/the_hive/agent_ollama.py:159-241 | claiming, observing and starting keep the invariant |
| OllamaProtocol.ApplyEndKeeps | src/the_hive/agent_ollama.py:243-287 | committing, and resetting or dropping a failed intent, keep the invariant |
| OllamaProtocol.ReapKeeps | src/the_hive/agent_ollama.py:553-584 | reaping absent intents from an old snapshot keeps the invariant |
| OllamaProtocol.RunningKeeps | src/the_hive/agent_ollama.py:469-542 | reaping dead running records and refreshing generations keep the invariant |
| OllamaProtocol.StopKeeps | src/the_hive/agent_ollama.py:392-458 | claiming, re-reading, observing and resetting a stop keep the invariant |
| OllamaProtocol.StopEndKeeps | src/the_hive/agent_ollama.py:392-443 | stopping the scope and removing its record keep the invariant |
| OllamaJournal.CommitReadable | src/the_hive/agent_ollama.py:243-274 | the committed document is readable if and only if the instance is listed or there is room for one more |
| OllamaJournal.AddPlanReadable | src/the_hive/agent_ollama.py:131-157 | planning never outgrows what the reader accepts |
| OllamaJournal.ClaimExactly | src/the_hive/agent_ollama.py:159-205 | `apply` gets its intent if and only if the plan is stored, nothing runs or starts its instance, and it is a ready plan younger than the maximal age or the intent of a dead owner |
| OllamaJournal.ClaimRefusal | src/the_hive/agent_ollama.py:168-187 | which code a refused claim answers, from the stored plan: plan_missing exactly for an absent or outdated ready plan |
| OllamaJournal.ClaimWrites | src/the_hive/agent_ollama.py:188-205 | a claim drops exactly the outdated ready plans, keeps what was planned, and gives a new unit and port only to a ready plan |
| OllamaJournal.AddPlanExactly | src/the_hive/agent_ollama.py:131-157 | after `plan` the document has, beside the new plan, exactly the intents and the ready plans of the given generation younger than the maximal age; refused if and only if those fill it |
| OllamaJournal.ClaimThenReset | src/the_hive/agent_ollama.py:281-287 | resetting a claimed ready plan leaves the document as before the claim, outdated plans aside |
| OllamaJournal.ClaimStopThenReset | src/the_hive/agent_ollama.py:445-458 | a stop that gives up leaves the document as before its claim |
| OllamaJournal.ClaimStopThenFinish | src/the_hive/agent_ollama.py:392-443 | a stop that runs to its end, through the generation refresh, removes its record and nothing else |
| OllamaJournal.ClaimStopExactly | src/the_hive/agent_ollama.py:392-420 | a stop is refused exactly for an unknown instance, an older generation, or a stop by another live owner |
| OllamaJournal.CommitExactly | src/the_hive/agent_ollama.py:243-274 | a commit goes through exactly over the unchanged intent and runs what was planned, as the process given |
| OllamaJournal.DropExactly | src/the_hive/agent_ollama.py:509-584 | reaping drops an entry exactly if it is still the one looked at |
| OllamaJournal.BindOnce | src/the_hive/agent_ollama.py:289-320 | a bound precondition can be bound again unchanged, and never to another digest or resource generation |
| OllamaAdapter.Adapter.ExpirePlans | src/the_hive/agent_ollama.py:605-620 | the loop leaves the plans `AddPlanExactly` and `ClaimExactly` speak of: intents, and ready plans younger than the maximal age and of the given generation |
| OllamaAdapter.Adapter.AddPlan | src/the_hive/agent_ollama.py:131-157 | new document and result of the planning section, error cases included |
| OllamaAdapter.Adapter.ClaimIntent | src/the_hive/agent_ollama.py:159-205 | new document and result of the intent section; `ClaimExactly`, `ClaimRefusal` and `ClaimWrites` say which |
| OllamaAdapter.Adapter.CommitRunning | src/the_hive/agent_ollama.py:243-274 | the intent becomes the running record, or the document is untouched |
| OllamaAdapter.Adapter.ResetIntent | src/the_hive/agent_ollama.py:281-287 | only the unchanged intent goes back to planned |
| OllamaAdapter.Adapter.ClaimStop | src/the_hive/agent_ollama.py:392-420 | new document and result of the stop claim |
| OllamaAdapter.Adapter.FinishStop | src/the_hive/agent_ollama.py:420-443 | the record of exactly this process is removed |
| OllamaAdapter.Adapter.ResetStopping | src/the_hive/agent_ollama.py:445-458 | only the unchanged stopping record goes back to running |
| ScopePaths.OverlapIsComponentPrefix | src/the_hive/admission.py:856-857 | the string test equals prefix overlap of component lists, for all strings |
| ScopePaths.OverlapIsSharedLocation | src/the_hive/admission.py:842-857 | two scope paths overlap if and only if some location lies at or under both |
| Admission.RunKeeps | src/the_hive/admission.py:350-365 | exclusion, capacity and unique ids hold in every reachable store, for both stores |
| Admission.OneActivePerAgent | src/the_hive/admission.py:552-557 | at most one active record per agent in every reachable store |
| Admission.CapacityHolds | src/the_hive/admission.py:558-572 | active counts per account and budget, and per model, stay within capacity |
| Admission.WritersExclude | src/the_hive/admission.py:573-579 | no repository location lies in the scopes of two active records of which one writes |
| AdmissionReserve.ConflictIsClash | src/the_hive/admission.py:842-853 | two scopes conflict if and only if they are of one repository, one of them writes, and some location lies in both |
| AdmissionReserve.ReserveAnswers | src/the_hive/admission.py:350-365 | the answer of a reservation, every refusal in its place, from the stored records: who still stands at that time, counted as sets, and shared locations |
| AdmissionReserve.ReserveAccepts | src/the_hive/admission.py:552-579 | a planned, unexpired record with a new id is accepted if and only if no standing record has its agent, account and model have room, and no standing record shares a location with it where one of the two writes |
| AdmissionReserve.ReserveWrites | src/the_hive/admission.py:350-365 | an accepted reservation leaves the store with exactly the overdue records expired and the record, reserved, at its end |
| AdmissionReserve.ReadersShare | src/the_hive/admission.py:847-848 | among standing readers a reader is never refused for its scope |
| AdmissionReserve.UseCounts | src/the_hive/admission.py:558-572 | the capacity sums are the numbers of active records on the key |
| AdmissionReserve.TableByTarget | src/the_hive/admission.py:790-839 | the transition table read backwards: from where each state is entered |
| AdmissionReserve.TransitionExactly | src/the_hive/admission.py:511-541 | a transition is accepted if and only if the record of that id has the expected revision, the table allows it, and a waiting record past its expiry goes only to EXPIRED |
| Admission.FileFollowsMemory | src/the_hive/admission.py:660-665 | up to the load limit the file store answers as the memory store, and keeps the file over a refusal |
| Admission.ExpireExactly | src/the_hive/admission.py:543-550 | a record changes if and only if it is expirable, expired and reached; it becomes EXPIRED, and exactly those are reported, in order; only a last revision stops the loop |
| Admission.ExpireFollows | src/the_hive/admission.py:543-550 | expiry moves a record at most one allowed step, and without an error leaves none expirable and expired |
| Admission.ReserveReloads | src/the_hive/admission.py:689-741 | a reservation leaves a reloadable file if and only if fewer than 4096 records were stored |
| Admission.FullFileReserves | src/the_hive/admission.py:689-741 | a loadable file of 4096 records accepts a reservation and refuses every later call |
| AdmissionStores.AdmissionStore.ExpireLocked | src/the_hive/admission.py:543-550 | the loop computes the expired store, and stops at an error where it is |
| AdmissionStores.AdmissionStore.Reserve | src/the_hive/admission.py:350-365 | new records and result of a reservation; `ReserveAnswers` and `ReserveWrites` say which, over locations and counts |
| AdmissionStores.AdmissionStore.Transition | src/the_hive/admission.py:497-541 | new records and result of a compare-and-swap on the revision |
| AdmissionStores.FileAdmissionStore.Mutate | src/the_hive/admission.py:660-665 | the stored file after one locked reload, change and write |
| AdmissionHistory.StaysStored | src/the_hive/admission.py:225-245 | a record keeps position, binding and lifetime; its revision never falls and names its content |
| AdmissionHistory.RevisionsSpentOnce | src/the_hive/admission.py:511-541 | no two successful transitions of an admission share an expected revision |
| AdmissionHistory.FinalizedWalkedTheRoad | src/the_hive/admission.py:790-839 | FINALIZED only after RESERVED, REVALIDATING, ADMITTED and EXECUTING at strictly increasing moments |
| AdmissionHistory.ExecutesBeforeExpiry | src/the_hive/admission.py:225-245 | EXECUTING is entered only strictly before expiry |
| AdmissionHistory.BoundedLife | src/the_hive/admission.py:790-839 | a record changes at most six times plus twice per resumption from PAUSED |
| AdmissionRuntime.CallsWithinGrants | src/the_hive/admission_runtime.py:133-234 | at every prefix of every interleaving, executor calls never exceed successful revalidations |
| AdmissionRuntime.EvidenceIsTrue | src/the_hive/admission_journal.py:131-144 | positive evidence implies the executor returned for that id, revision and binding digest |
| AdmissionRuntimeFences.CallsAreFenced | src/the_hive/admission_runtime.py:179-220 | over every interleaving and restart, whenever the executor is called the admission is executing, was revalidated at an earlier revision, and the journal already names it with its operation |
| AdmissionRuntimeFences.CompletionNeverConflicts | src/the_hive/admission_runtime.py:220-234 | what the executor returned can always be recorded, and is then evidence |
| AdmissionRuntimeFences.EvidenceLasts | src/the_hive/admission_journal.py:131-144 | evidence once given stays over every later run |
| AdmissionRuntimeFences.StartExactly | src/the_hive/admission_journal.py:75-97 | a start is accepted exactly for a new admission while there is room, or again for the very one that is open |
| AdmissionRuntimeFences.CompleteExactly | src/the_hive/admission_journal.py:99-129 | a completion is accepted exactly for a start of the same admission, revision, binding and operation |
| AdmissionRuntime.CompletionIsFinalUnlessInFlight | src/the_hive/admission_runtime.py:194-220 | after recorded completion another call is possible if and only if another execution is in flight |
| AdmissionRuntime.CompletionFinalWithoutOverlap | src/the_hive/admission_runtime.py:179-234 | with executions that never overlap, no executor call follows completion |
| AdmissionRuntime.OverlapCallsAfterCompletion | src/the_hive/admission_runtime.py:194-220 | a schedule in which a call follows completion |
| AdmissionRuntimeObjects.ServerAdmissionRuntime.Revalidate | src/the_hive/admission_runtime.py:133-167 | true exactly if revalidating, unexpired by a usable clock and no gate denies the admission; otherwise the first failure in the fixed order is kept |
| AdmissionRuntimeObjects.ServerAdmissionRuntime.RevalidateBeforeBeginExecution | src/the_hive/admission_runtime.py:169-177 | true exactly if admitted and the pool authority, where bound, is confirmed; otherwise the failure is kept |
| AdmissionRuntimeObjects.ServerAdmissionRuntime.RevalidatePoolAuthority | src/the_hive/admission_runtime.py:273-281 | an admission bound to a pool is denied exactly without the reader's word |
| AdmissionRuntimeObjects.ServerAdmissionRuntime.Spend | src/the_hive/admission_runtime.py:212-215 | a seen revalidation is removed exactly once |
| AdmissionRuntimeObjects.FileCompletionJournal.RecordStarted | src/the_hive/admission_journal.py:75-97 | new journal and error of a start, all conflicts included |
| AdmissionRuntimeObjects.FileCompletionJournal.RecordCompleted | src/the_hive/admission_journal.py:99-129 | new journal and error of a completion |
| Octets.FieldIff | src/the_hive/_d73_q1_record.py:113-140 | a big-endian field reads as n exactly when its bytes are the encoding of n |
| Q1RoundTrip.PrefixIff | src/the_hive/_d73_q1_record.py:389-417 | the header comparisons and lengths read hold exactly on the encoded 108-byte prefix |
| Q1RoundTrip.LeafIff | src/the_hive/_d73_q1_record.py:553-572 | the leaf decoder gives a leaf exactly on the encoding of that well-formed leaf |
| Q1RoundTrip.TupleIff | src/the_hive/_d73_q1_record.py:575-600 | the tuple comparisons hold exactly on the encoded tuple |
| Q1RoundTrip.PartsIff | src/the_hive/_d73_q1_record.py:603-718 | the section and digest checks give a record exactly on the parts the encoder builds for it; what each digest covers is `DigestsCover` |
| Q1RoundTrip.EncodeTotal | src/the_hive/_d73_q1_record.py:448-542 | encoding succeeds if and only if every input is well formed; the length limits never stop it |
| Q1RoundTrip.DecodeEncode | src/the_hive/_d73_q1_record.py:448-542 | decoding an encoded record under its descriptor returns the inputs, for any hash |
| Q1RoundTrip.EncodeDecode | src/the_hive/_d73_q1_record.py:603-718 | every accepted byte string is the encoding of what it decoded to, so no byte is unchecked |
| Q1RoundTrip.DecodeInjective | src/the_hive/_d73_q1_record.py:603-718 | two byte strings that decode alike under one descriptor are equal |
| Q1RoundTrip.DescriptorBound | src/the_hive/_d73_q1_record.py:603-646 | a byte string is accepted under at most one descriptor identity |
| Q1Binding.BinderLayout | src/the_hive/_d73_q1_record.py:501-510 | the commit and the four digests stand at their own offsets of the 199 bytes the binder is taken over |
| Q1Binding.BinderInjective | src/the_hive/_d73_q1_record.py:501-510 | what the binder is taken over determines the commit and all four digests |
| Q1Binding.BinderBinds | src/the_hive/_d73_q1_record.py:603-718 | two accepted byte strings with equal bytes 236..268 are equal and have one descriptor identity, or the lemma returns two different byte strings hashed for them that hash alike; no property of the hash is used |
| Q1Binding.DigestsCover | src/the_hive/_d73_q1_record.py:648-718 | each of the six digests of an accepted record is the digest of exactly these bytes of it, by offset |
| Q1Binding.HashInputInjective | src/the_hive/_d73_q1_record.py:197-200 | what is hashed determines the label and the payload, so the six domains are separate |
| Q1Binding.LabelTexts | src/the_hive/_d73_q1_record.py:40-45 | the labels spell the names of the format |
| Q1Binding.FieldsExactly | src/the_hive/_d73_q1_record.py:143-182 | the well-formed inputs, field by field: forty hexadecimal digits, a generation that is a file name, a bus name that is no unique name, a context without a zero byte |
| Q1Capability.ClosedUnlessLost | src/the_hive/_d73_q1_record.py:824-835 | a discarded capability is closed if and only if its descriptor still is the issued file |
| Q1Capability.ReopenedStaysOpen | src/the_hive/_d73_q1_record.py:824-835 | a descriptor reopened as another file: the capability is consumed and the descriptor stays open |
| Q1Capability.NothingAfterClose | src/the_hive/_d73_q1_record.py:929-968 | a log with an event of a capability after its close is not the life of one |
| Q1Capability.DecodeKeeps | src/the_hive/_d73_q1_record.py:939-968 | decoding consumes the capability: at most two reads, then the one close, whatever was read |
| Q1Materialize.MemoryFile.WriteAll | src/the_hive/_d73_q1_record.py:900-905 | the write loop completes exactly if every answer is in range, and then the whole record is written |
| Q1Materialize.Materialize | src/the_hive/_d73_q1_record.py:852-926 | a capability is issued exactly for a completely written, sealed record; otherwise the descriptor is closed |
| Q1Materialize.BindsOnlyItsPair | src/the_hive/_d73_authority.py:442-464 | a record binds exactly the policy and attestation it was made from, with the manifest's own digest |
| Q1Materialize.ReachesBoundExactly | src/the_hive/_d73_authority.py:394-464 | a materialised capability reaches DECODED_BOUND exactly for its own pair; every other pair aborts |
| IngressTransaction.RunKeeps | src/the_hive/_d73_authority.py:302-527 | ownership, chain and field invariants hold over every re-entrant run of any number of transactions |
| IngressTransaction.OneStepAlongTheChain | src/the_hive/_d73_authority.py:335-527 | each step leaves a transaction, moves it one state on, or aborts it; ABORTED is left if and only if the step ends a close that was aborted after it was entered, and then for CLOSED |
| IngressTransaction.AbortOverwritten | src/the_hive/_d73_authority.py:502-512 | from any verified transaction: enter close, abort, end close gives ABORTED and then CLOSED |
| IngressReach.ReachVerified | src/the_hive/_d73_authority.py:358-500 | an honest policy, attestation, descriptor and peer carry a transaction to C_VERIFIED |
| IngressReach.ReachOverwritten | src/the_hive/_d73_authority.py:502-527 | a run from the empty world in which an abort inside close is overwritten |
| IngressReach.HonestMaterials | src/the_hive/_d73_q1_record.py:852-926 | such materials exist |
| IngressReach.CallRuns | src/the_hive/_d73_authority.py:348-512 | an undisturbed accepted call is a run of its steps with the same result |
| IngressTransaction.CapabilityOwnership | src/the_hive/_d73_authority.py:394-420 | between calls a capability is held exactly in CAPABILITY_MOVED; any other one ever passed in is consumed |
| IngressTransaction.NeverUsedAfterClose | src/the_hive/_d73_q1_record.py:824-968 | over every run a descriptor is closed at most once and never read after |
| IngressTransaction.OneCapabilityPerFile | src/the_hive/_d73_q1_record.py:838-849 | no file is ever issued two capabilities |
| IngressTransaction.ClosedVerifiedThrice | src/the_hive/_d73_authority.py:257-285 | CLOSED needs the whole chain with three observations of one peer admitted by the policy |
| IngressIdentity.OnePeerThroughout | src/the_hive/_d73_authority.py:257-285 | over every run, whatever reaches CLOSED was seen three times with equal sender, process, user and context, not root, as the policy names them, with full credentials and owning the policy's bus name each time |
| IngressIdentity.ContinuousExactly | src/the_hive/_d73_authority.py:257-285 | a later observation is accepted exactly if it is of the same peer and that peer owns the policy's name |
| IngressIdentity.AdmitsExactly | src/the_hive/_d73_authority.py:358-368 | the first observation is accepted exactly for the user and the security context of the policy |
| IngressIdentity.ReadbackExactly | src/the_hive/_d73_q1_record.py:939-968 | a readback gives a record if and only if the file was sealed, unlinked and unchanging over three looks, read twice alike, and holds the encoding of that record |
| IngressIdentity.DecodedWasSealed | src/the_hive/_d73_authority.py:422-440 | over every run a decoded record was read for its transaction from such a file |
| IngressIdentity.EndedKeepsNothing | src/the_hive/_d73_authority.py:335-356 | over every run an ended transaction keeps neither capability nor attestation, record or peer |
| IngressObjects.CapabilityRegistry.Issue | src/the_hive/_d73_q1_record.py:838-849 | issues exactly a new, in-range, never issued identity |
| IngressObjects.CapabilityRegistry.Take | src/the_hive/_d73_q1_record.py:824-835 | the object and registry after a take, and the descriptor it yields |
| IngressObjects.Transaction.VerifyA | src/the_hive/_d73_authority.py:358-373 | fields and descriptors after the call, and exactly when it succeeds |
| IngressObjects.Transaction.Authorize | src/the_hive/_d73_authority.py:375-392 | fields and descriptors after the call, and exactly when it succeeds |
| IngressObjects.Transaction.MoveCapability | src/the_hive/_d73_authority.py:394-420 | fields and descriptors after the call, the discards of a refused one included |
| IngressObjects.Transaction.Decode | src/the_hive/_d73_authority.py:422-440 | fields and descriptors after the call, and exactly when it succeeds |
| IngressObjects.Transaction.VerifyLater | src/the_hive/_d73_authority.py:466-484 | fields and descriptors after the call, and success exactly in turn and with continuity to the stored peer |
| IngressObjects.Transaction.Close | src/the_hive/_d73_authority.py:502-512 | fields and descriptors after the call, and exactly when it succeeds |
| Tables.SortAscending | src/the_hive/admin_hosts.py:408-409 | sorting distinct references gives strictly ascending order |
| HostsReading.ReadValid | src/the_hive/admin_hosts.py:751-947 | whatever document is accepted, the state handed out passes every check, in order |
| HostsReading.WriteReads | src/the_hive/admin_hosts.py:1109-1172 | a valid state is always written and reads back as itself without migration |
| HostsReading.MigrationKeepsHosts | src/the_hive/admin_hosts.py:949-1065 | migrating schema 1, 2 or early 3 succeeds, keeps the merged host list, and happens once |
| HostsReading.MergedMembers | src/the_hive/admin_hosts.py:1342-1349 | the merged list is in order and has each observed host, and each other registration, exactly |
| HostsRuns.NextEpochFences | src/the_hive/admin_hosts.py:359-383 | a stored epoch is in range, never below the history, and equal to it only for the same binding |
| HostsRuns.ProvisionAdvances | src/the_hive/admin_hosts.py:324-418 | provisioning keeps readability and the fence, and raises the generation if it changes anything |
| HostsRuns.ProvisionTwice | src/the_hive/admin_hosts.py:388-394 | provisioning the same binding again returns the stored host and changes nothing |
| HostsRuns.RecordProbeAdvances | src/the_hive/admin_hosts.py:597-650 | a probe keeps readability and the fence, and raises the generation if it changes anything |
| HostsRuns.ActiveProbeAdvances | src/the_hive/admin_hosts.py:652-714 | an active probe keeps readability and the fence, and raises the generation if it changes anything |
| HostsRuns.ActiveProbeReadable | src/the_hive/admin_hosts.py:652-714 | a changed document is readable if and only if the host's ssh binding, if any, is not empty |
| HostsRuns.ProbeOverEmptyBinding | src/the_hive/admin_hosts.py:652-714 | a readable document with an empty ssh binding that an active probe makes unreadable |
| HostsSync.SynchronizeAdvances | src/the_hive/admin_hosts.py:420-552 | synchronizing all bindings keeps readability and the fence, and raises the generation if it changes anything |
| HostsHistory.AlwaysReadable | src/the_hive/admin_hosts.py:717-749 | every document of every run is accepted by the strict reader |
| HostsHistory.WritesRaise | src/the_hive/admin_hosts.py:1358-1366 | a change raises the document generation above every generation stored before |
| HostsCalls.ExpectationsSpentOnce | src/the_hive/admin_hosts.py:345-346 | over runs, of two calls that change the registry and were given an expected generation, the later was given a strictly larger one |
| HostsCalls.ProvisionCompares | src/the_hive/admin_hosts.py:324-346 | provisioning succeeds only at the expected generation, and answers generation_conflict if and only if a well-formed call expects another one |
| HostsCalls.SynchronizeCompares | src/the_hive/admin_hosts.py:420-455 | the same for synchronizing, where no expectation is always met |
| HostsCalls.ProvisionBinds | src/the_hive/admin_hosts.py:384-418 | a successful provision leaves exactly the binding asked for under its lease epoch, its registration, and everything of other hosts |
| HostsCalls.SynchronizeBinds | src/the_hive/admin_hosts.py:456-552 | synchronizing leaves exactly the wanted bindings under their lease epochs, the wanted registrations, and as they were the hosts kept for another reason |
| HostsCalls.SynchronizeDates | src/the_hive/admin_hosts.py:480-540 | a host that is as wanted is kept to the letter; every other one registered gets the new generation |
| HostsCalls.ProbeCompares | src/the_hive/admin_hosts.py:597-636 | a probe is refused as outdated if and only if a newer one, or another one of its generation, is stored |
| HostsCalls.ProbeStores | src/the_hive/admin_hosts.py:625-650 | after a recorded probe its observation and binding are those of the host, and other hosts are untouched |
| HostsCalls.ActiveProbeCompares | src/the_hive/admin_hosts.py:652-700 | when an active probe finds no host, and when it is outdated |
| HostsCalls.ActiveProbeStores | src/the_hive/admin_hosts.py:690-714 | what an active probe stores, and the generation it gives the document |
| HostsCalls.ProbeTwice | src/the_hive/admin_hosts.py:625-636 | a probe repeated word for word returns the stored host and changes nothing |
| HostsCalls.ActiveProbeTwice | src/the_hive/admin_hosts.py:690-702 | an active probe repeated word for word returns the stored host and changes nothing |
| HostsCalls.ProbeMalformed | src/the_hive/admin_hosts.py:1196-1214 | a probe is malformed exactly without a time, from a source that does not probe, out of range, or without a binding |
| HostsCalls.ReadIsSigned | src/the_hive/admin_hosts.py:751-947 | whatever document is read, no observation is handed out whose digest does not fit its host and binding, or its active probe |
| HostsCalls.SecondLayoutIsSigned | src/the_hive/admin_hosts.py:949-1018 | a document of the second layout is read only if each stored digest is that of its host and binding |
| HostsCalls.ProbesMoveForward | src/the_hive/admin_hosts.py:597-714 | over any stretch of a run in which a host stays observed its observations never go back, and one generation has one digest |
| HostsHistory.EpochNamesBinding | src/the_hive/admin_hosts.py:324-418 | over runs epochs of a host never fall, and one epoch has one key and one enabled flag |
| HostsHistory.ReaddedHigher | src/the_hive/admin_hosts.py:376-381 | a removed and re-added binding gets a strictly higher epoch |
| HostsHistory.MatchesAtMostOne | src/the_hive/admin_hosts.py:569-595 | a key has no enabled binding, or exactly the one that holds it |
| HostsHistory.ResolvesExactly | src/the_hive/admin_hosts.py:569-595 | enabled bindings never share a key, and a key resolves exactly to the host that holds it |
| HostRegistries.HostRegistry.Load | src/the_hive/admin_hosts.py:717-749 | the state read, and the file after a migration |
| HostRegistries.HostRegistry.ProvisionAgentBinding | src/the_hive/admin_hosts.py:324-418 | the file and the result of a provision; `ProvisionCompares` and `ProvisionBinds` say when and which |
| HostRegistries.HostRegistry.Validate | src/the_hive/admin_hosts.py:430-441 | the loop accepts exactly one entry per host and one enabled host per key |
| HostRegistries.HostRegistry.SynchronizeAgentBindings | src/the_hive/admin_hosts.py:420-552 | the file and the result, every refusal included |
| HostRegistries.HostRegistry.RecordProbe | src/the_hive/admin_hosts.py:597-650 | the file and the result, every refusal included |
| HostRegistries.HostRegistry.RecordActiveProbe | src/the_hive/admin_hosts.py:652-714 | the file and the result, every refusal included |
| OperationsRecords.MutateReadable | src/the_hive/admin_operations.py:1117-1209 | a record written by any change passes the reader if and only if the unchecked side condition holds |
| OperationsRecords.RecordStepReadable | src/the_hive/admin_operations.py:331-374 | for a recorded step the condition is at most 32 distinct codes |
| OperationsRecords.ResumeReadable | src/the_hive/admin_operations.py:511-543 | for a resumption the condition is no resulting generation |
| OperationsRecords.MutateKeeps | src/the_hive/admin_operations.py:314-416 | careful changes keep a record readable for every later change |
| OperationsRecords.MutateEvolves | src/the_hive/admin_operations.py:314-658 | a change keeps identity, plan and lifetime and touches no attempted step and no finished operation |
| OperationsRecords.ThirtyThirdCode | src/the_hive/admin_operations.py:367-374 | a running operation whose next step is written unreadable |
| OperationsRecords.ClaimedReconciliation | src/the_hive/admin_operations.py:520-543 | a finish that makes the following resumption unreadable |
| OperationsRuns.IdsUnique | src/the_hive/admin_operations.py:235-279 | operation ids, keys, owners and agent jobs stay unique over every run |
| OperationsRuns.OperationsEvolve | src/the_hive/admin_operations.py:331-416 | between any two points of a run a step leaves not_attempted at most once, and succeeded, failed and blocked operations never change |
| OperationsRuns.NeverPrunedWhileOwned | src/the_hive/admin_operations.py:880-945 | a record with an unacknowledged owner is always there, even with a crash between the two writes |
| OperationsRuns.PruneGuards | src/the_hive/admin_operations.py:1394-1408 | pruning keeps every record with an unacknowledged owner |
| OperationsRuns.MigrateKeeps | src/the_hive/admin_operations.py:880-945 | migrated owners keep the owner document readable and belong to present records |
| OperationsRuns.AlwaysReadable | src/the_hive/admin_operations.py:1013-1076 | with careful callers every document of every run passes the reader |
| OperationsRuns.PlanAgain | src/the_hive/admin_operations.py:220-279 | over runs: as long as the record of a request is stored, planning it again returns the record as it is by then and adds nothing if and only if pruning keeps it |
| OperationsRuns.PlanTwice | src/the_hive/admin_operations.py:220-279 | directly after a plan, planning again under the same key returns the stored plan and adds nothing |
| OperationsReports.StepsWereReported | src/the_hive/admin_operations.py:331-374 | over every run a step stored as done was reported as succeeded while untried; a step stored as failed was reported as failed or is the probe an expiry gave up; each shows what was reported |
| OperationsReports.SuccessWasReported | src/the_hive/admin_operations.py:376-416 | an operation is stored as succeeded only if a finish said so and every one of its steps was reported as succeeded |
| OperationsReports.RecordStepExactly | src/the_hive/admin_operations.py:331-374 | a report is accepted exactly for an untried step of a running operation; that step is done exactly if reported so, a failed one carries the given code or control.step_failed, every other step is unchanged, and the codes are those of the steps, each once |
| OperationsReports.FinishExactly | src/the_hive/admin_operations.py:376-416 | a finish is accepted exactly for a running operation that may end so, and with which codes |
| OperationsReports.BeginExactly | src/the_hive/admin_operations.py:314-329 | a begin is accepted exactly for a planned, unexpired operation of the expected generation |
| OperationsReports.ResumeExactly | src/the_hive/admin_operations.py:511-543 | a resume is accepted exactly for an unexpired probe that a restart reconciled |
| OperationsReports.ExpireEnds | src/the_hive/admin_operations.py:545-658 | an expired probe ends failed with its one reason, unless it was reconciled after it was done |
| OperationsReports.AcknowledgeExactly | src/the_hive/admin_operations.py:468-509 | an owner is acknowledged exactly by its own agent job, for good, and only once its operation has ended |
| OperationsOwners.OwnersAreOfProbes | src/the_hive/admin_operations.py:660-718 | over every run, migrations and crashes included, the operation of an owner is a host probe of its digest and expected generation |
| OperationsOwners.NeverDropsRunning | src/the_hive/admin_operations.py:1394-1408 | no call drops a running operation, nor one that has not expired by then |
| OperationsOwners.ReconcileExactly | src/the_hive/admin_operations.py:989-1001 | a restart turns exactly the running operations of dead processes partial |
| OperationsOwners.ExpireExactly | src/the_hive/admin_operations.py:545-658 | an expiry is accepted exactly for a probe of this generation and digest that it may end or finds ended |
| OperationsOwners.ClaimExactly | src/the_hive/admin_operations.py:660-718 | an owner is claimed again exactly by the same agent job, and anew exactly for a stored probe by a job that owns nothing yet |
| OperationsOwners.MigrateInherits | src/the_hive/admin_operations.py:880-976 | a migrated owner inherits from a binding of its operation and digest, acknowledged only with a final word on a finished operation |
| OperationStores.AdminOperationStore.ReconcileRunning | src/the_hive/admin_operations.py:989-1001 | exactly the running records of dead owners become partial |
| OperationStores.AdminOperationStore.Begin | src/the_hive/admin_operations.py:314-329 | the document after the call and what it returns, every refusal included |
| OperationStores.AdminOperationStore.RecordStep | src/the_hive/admin_operations.py:331-374 | the document after the call and what it returns, the failure after a write with too many codes included; `RecordStepExactly` says which |
| OperationStores.AdminOperationStore.CollectCodes | src/the_hive/admin_operations.py:367-372 | the loop computes the distinct codes of the steps in order |
| OperationStores.AdminOperationStore.Finish | src/the_hive/admin_operations.py:376-416 | the document after the call and what it returns, every refusal and the failure after a write with too many codes included |
| OperationStores.AdminOperationStore.ResumeHostProbe | src/the_hive/admin_operations.py:511-543 | the document after the call and what it returns, every refusal included |
| OperationStores.AdminOperationStore.PruneExpired | src/the_hive/admin_operations.py:1394-1408 | the loop leaves exactly the retained records |
| OperationStores.AdminOperationStore.MigrateOwners | src/the_hive/admin_operations.py:880-945 | the owners after the migration loop, or unchanged with the code it stops for |
| OperationStores.AdminOperationStore.PlanOperation | src/the_hive/admin_operations.py:220-279 | both documents and the result of an uninterrupted plan, every refusal included |
| OperationStores.AdminOperationStore.ClaimHostProbeAgent | src/the_hive/admin_operations.py:660-718 | the owners after the call, and exactly when it succeeds, unreadable documents included |
| OperationStores.AdminOperationStore.AcknowledgeHostProbeAgent | src/the_hive/admin_operations.py:468-509 | the owners after the call, and exactly when it succeeds, unreadable documents included |
| TelemetryHistory.JournalIsNewest | src/the_hive/cache_telemetry_history.py:488-531 | the journal is the newest records, by time and key, of all appended ones within retention, whatever the order |
| TelemetryHistory.NewestUnique | src/the_hive/cache_telemetry_history.py:83-84 | at most one list is the newest of a set, so the journal is determined |
| TelemetryHistory.AppendRefusedExactly | src/the_hive/cache_telemetry_history.py:488-509 | an append is refused if and only if the event is in the future or a retained event has its key and differs |
| TelemetryHistory.JournalIsTidy | src/the_hive/cache_telemetry_history.py:488-531 | whatever is appended under whatever clocks, the journal is in order, has one event per key, only appended ones, and no more than its limit |
| TelemetryHistory.GenerationCounts | src/the_hive/cache_telemetry_history.py:515-531 | the generation rises by one with the records, and only with them |
| TelemetryStores.CacheTelemetryHistory.Append | src/the_hive/cache_telemetry_history.py:488-521 | the journal after the call, exactly when it succeeds, and the whole receipt |
| TelemetryStores.CacheTelemetryHistory.Read | src/the_hive/cache_telemetry_history.py:523-531 | the journal and the result of a read |
| Totp.AcceptedOnce | src/the_hive/admin_auth.py:332-356 | over every run of verifiers sharing the list each counter is accepted at most once |
| Totp.ListStaysShort | src/the_hive/admin_auth.py:374-408 | the list never exceeds the live window, so the cut to 32 drops nothing live |
| Totp.StepKeeps | src/the_hive/admin_auth.py:332-356 | an accepted code matches its counter, which was not accepted before |
| Totp.AcceptsExactly | src/the_hive/admin_auth.py:332-356 | after every run a code is accepted if and only if some counter within the skew has it and the nearest such counter was not accepted before; it is a replay exactly if that one was |
| Totp.CandidatesExactly | src/the_hive/admin_auth.py:337-342 | the candidates are exactly the counters within the skew, nearest first |
| Totp.ClaimRefusedExactly | src/the_hive/admin_auth.py:374-408 | a claim is a replay exactly of a stored counter that is not below the floor |
| Totp.ClaimKeepsNewest | src/the_hive/admin_auth.py:374-408 | whatever ascending list is stored, a claim keeps at most the 32 newest live counters |
| TotpReplay.TotpReplayState.Claim | src/the_hive/admin_auth.py:374-408 | the stored list after a claim, and exactly when it is refused |
| SecretIngress.HandoutsBounded | src/the_hive/admin_secret_ingress.py:567-605 | under any interleaving bytes are handed out at most once per stored session plus once per rollback |
| SecretIngress.ReconcilersGetNothing | src/the_hive/admin_secret_ingress.py:567-605 | a reconcile-only claim never receives bytes |
| SecretIngress.ResolvedFinal | src/the_hive/admin_secret_ingress.py:698-729 | a resolved session stays stored and unchanged |
| SecretIngressRights.HandoutsEntitled | src/the_hive/admin_secret_ingress.py:481-605 | over every interleaving, bytes go only to a claim drawn by a request with the exact terms, upload key and receipt of the session, for an upload its own principal reserved |
| SecretIngressRights.SessionsTraced | src/the_hive/admin_secret_ingress.py:224-380 | over every run each stage of a session was reached by the right call, with its principal, generation and keys |
| SecretIngressRights.ResolvedWasRevoked | src/the_hive/admin_secret_ingress.py:698-729 | a session is resolved only with the vault's word that its secret is revoked |
| SecretIngressRights.HonestPath | src/the_hive/admin_secret_ingress.py:224-605 | between authorisation and expiry an honest upload and resolution go through |
| SecretIngressRights.UploadExactly | src/the_hive/admin_secret_ingress.py:224-289 | exactly who may reserve an upload, and with what claim |
| SecretIngressRights.PutFailedExactly | src/the_hive/admin_secret_ingress.py:765-785 | a failed store goes back to the reservation exactly if the vault has nothing |
| SecretIngressRights.ResolveExactly | src/the_hive/admin_secret_ingress.py:481-565 | exactly who may reserve a resolution, and when only to reconcile |
| SecretIngressRights.StartExactly | src/the_hive/admin_secret_ingress.py:567-590 | the secret may be taken exactly once per reservation |
| SecretIngressRights.ResolveThenRollback | src/the_hive/admin_secret_ingress.py:742-756 | a rolled back resolution frees the upload for another one |
| SecretIngressRights.PruneExactly | src/the_hive/admin_secret_ingress.py:177-222 | dropped are exactly expired sessions that hold no secret |
| SecretIngressRights.CreateExactly | src/the_hive/admin_secret_ingress.py:103-175 | a session is refused exactly if it is there under other terms or there is no room; no creation overfills the table |
| SecretIngressOwners.AdminSecretIngressOwner.PruneLocked | src/the_hive/admin_secret_ingress.py:177-222 | the loop removes exactly the prunable sessions |
| SecretIngressOwners.AdminSecretIngressOwner.CreateSession | src/the_hive/admin_secret_ingress.py:103-175 | the sessions and the result, existing and full cases included |
| SecretIngressOwners.AdminSecretIngressOwner.CommitUpload | src/the_hive/admin_secret_ingress.py:354-380 | the sessions after the call, and exactly when it succeeds, replayed and already stored receipts included |
| SecretIngressOwners.AdminSecretIngressOwner.StartResolve | src/the_hive/admin_secret_ingress.py:567-590 | the sessions after the locked part and whether the caller may take the secret, unknown sessions included |
| SecretIngressOwners.AdminSecretIngressOwner.RollbackResolve | src/the_hive/admin_secret_ingress.py:742-756 | the sessions after a rollback |
| Provisioner.StartedOnce | src/the_hive/admin_assembly.py:1929-2028 | for each idempotency key the effect is started at most once, over all runs and crashes |
| Provisioner.FinishedAnswersForever | src/the_hive/admin_assembly.py:1943-1986 | a later apply of a finished order returns the stored receipt, which the effect did answer, if and only if no second plan of its fingerprint was stored since it was granted; otherwise it is refused, and nothing changes |
| Provisioner.SingleSince | src/the_hive/admin_assembly.py:1906-1926 | a fingerprint stays that of one plan exactly until a plan of it is stored under another key |
| Provisioner.EntryGranted | src/the_hive/admin_assembly.py:1965-2003 | every entry was granted by an apply of the run, with exactly one plan of its fingerprint stored |
| Provisioner.ReplannedIsRefused | src/the_hive/admin_assembly.py:1943-1964 | a run that plans, applies, finishes and plans again, after which the finished order is refused |
| Provisioner.UnfinishedNeverRestarts | src/the_hive/admin_assembly.py:1965-1986 | a running or unknown entry never lets its effect start again |
| Provisioner.BeginExactly | src/the_hive/admin_assembly.py:1943-2003 | an apply may start its effect exactly if one stored plan has its fingerprint, account and generation, its key is new and there is room; the very order made before is answered from its entry |
| Provisioner.StorePlanExactly | src/the_hive/admin_assembly.py:1906-1926 | a plan is stored exactly under a new key while there is room, and given again exactly if the key has the very same plan |
| Provisioner.CloseExactly | src/the_hive/admin_assembly.py:1595-1634 | only a running entry of the plan is closed, and nothing of it but its status changes |
| Provisioner.JournalBounded | src/the_hive/admin_assembly.py:1906-2003 | over every run the journal stays within its bounds and no key has two plans |
| ProvisionerJournal.GoogleProvisioner.StorePlan | src/the_hive/admin_assembly.py:1906-1926 | the plan of the key, or a new one while there is room; fingerprints are not compared |
| ProvisionerJournal.GoogleProvisioner.BeginApply | src/the_hive/admin_assembly.py:1943-2003 | the answer and the journal after the locked part |
| ProvisionerJournal.GoogleProvisioner.CloseApply | src/the_hive/admin_assembly.py:1595-1634 | only a running entry of the same plan is closed |
| ResolverOffer.OfferMembers | src/the_hive/agent_resolver.py:613-673 | the options are exactly the valid tuples of available, current models |
| ResolverOffer.DecisionIsOffered | src/the_hive/agent_resolver.py:425-610 | whenever both succeed on the same catalogs, the decision is one of the options |
| ResolverOffer.OfferedCanBeHad | src/the_hive/agent_resolver.py:425-610 | requesting an offered tuple returns exactly it with no fallback if and only if its model reaches the minimum rank, its lifecycle is no alias and a leadership class has the one persistent lifecycle |
| ResolverOffer.OfferedBelowMinimum | src/the_hive/agent_resolver.py:500-560 | a catalog that offers a tuple which cannot be had |
| ResolverOffer.LevelTaken | src/the_hive/agent_resolver.py:368-408 | an allowed reasoning level is taken as asked |
| ResolverChoice.DecisionIsBest | src/the_hive/agent_resolver.py:425-610 | every decision names the class asked for or else the best eligible one, a named usable model or else the lowest sufficient one, and the nearest allowed level |
| ResolverChoice.ClassIsBest | src/the_hive/agent_resolver.py:302-340 | the automatic class is minimal in the order of the choice, and there is one if and only if some class is eligible |
| ResolverChoice.FavouriteWins | src/the_hive/agent_resolver.py:323-338 | the preferred class is taken whenever it is eligible |
| ResolverChoice.ModelIsBest | src/the_hive/agent_resolver.py:484-551 | the model taken is the named one or has the lowest sufficient rank, and there is one if and only if some model is usable |
| ResolverChoice.LevelIsNearest | src/the_hive/agent_resolver.py:368-408 | the level taken has the least distance to the one asked for or the default, the lower of two, among the allowed ones |
| ResolverChoice.MinimumExactly | src/the_hive/agent_resolver.py:510-523 | the rank a class asks of its models |
| ResolverFallback.FallbackExactly | src/the_hive/agent_resolver.py:587-605 | a decision is flagged as a fallback if and only if something asked for is not the one taken, or a default could not be had |
| ResolverFallback.LeadershipTakesExactly | src/the_hive/agent_resolver.py:452-560 | a leadership class asked for by name is had only persistent, at the level asked for, and with the model asked for unless that is below the minimum |
| ResolverFallback.RetiredExactly | src/the_hive/agent_resolver.py:425-450 | a request is refused as retired exactly if it names a retired model or one of the retired family |
| ResolverLoops.BuildSelectionOffer | src/the_hive/agent_resolver.py:613-673 | the nested loops compute the options, or the first error |

## Left out

- HTTP, Unix-socket, TLS, D-Bus and systemd transports, and the dispatch over owners: mostly I/O and routing.
- JSON text, regular expressions, private-text filters and date formats: values are taken as already parsed and
  normalised, and their round trips are assumed; tokens, references and labels are plain strings.
- File permissions, symbolic links, byte-size ceilings and `fsync`: a document write is one atomic, durable step.
- SHA-256, HMAC and the manifest grammar are parameters; a request fingerprint stands for the request it hashes.
- The clock, randomness and the process table are parameters of a call. Drawn ids, unit names and thread identities
  are new, a process reported dead takes no further step, and an absence report by the runtime is truthful.
- Effects that systemd or the runtime still carries out after their caller died are not modelled.
- The vault behind secret ingress: what it answers is a parameter, and its own guarantees are not used.
- `continue_resolve`, `lookup_plan`, the read-only queries, aggregates and public projections: easy members without state.
- Reading operation documents of schema 1, and the check of all owners on opening the operation store.
- `expire_host_probe` and `abort` are modelled as functions and steps; they have no method of their own.
- IngressObjects.Transaction.VerifyA: one call runs undisturbed; re-entrant schedules are covered by the steps of `IngressTransaction`, and `CallRuns` ties the two.
- AdmissionRuntimeObjects.ServerAdmissionRuntime.Revalidate: a gate is a function of the admission; how its answer changes over time is not modelled.
- ResolverOffer.OfferedCanBeHad: class and model ids are unique and no capability is required.
- IngressTransaction.OneStepAlongTheChain: calls interleave at re-entrant points; a thread preempted between a state test and the assignment after it is not modelled.
- Reading Ollama journals of schema 1.
- SecretIngress.HandoutsBounded: counts by session id, so a session pruned and created again counts as two stored sessions.
- TelemetryHistory.JournalIsNewest: the clock does not run backwards and an event key determines its event; the generation has no upper bound.
- Totp.AcceptsExactly: clock readings do not fall, and the skew is at most two steps, as for `AcceptedOnce`.
- ResolverFallback.FallbackExactly: class and model ids are unique.
- HostsCalls.ProbesMoveForward: a host dropped by synchronizing may be observed again at a lower generation.
- Totp.AcceptedOnce: clock readings do not fall in the order of the claims.
- OperationsRuns.AlwaysReadable: callers keep to 32 distinct codes and do not finish as reconciled with a generation; `MutateReadable` says exactly what happens otherwise.
- HostsHistory.EpochNamesBinding: from the empty registry or a document whose history holds the epoch of every binding and whose ssh bindings are not empty.
- Provisioner.StartedOnce: cloud calls inside one effect are not modelled.
- Hooks, the Copilot bridge, agent contracts, identities and state, and the team-lead registry: input checks and single-branch guards.
