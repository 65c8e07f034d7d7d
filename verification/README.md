# Verification model of the ACK controller for Amazon S3 Tables

This project models the level-triggered reconciliation of the S3 Tables controller (`pkg/resource/table_bucket`,
`pkg/resource/table`, `apis/v1alpha1`) in Dafny and proves what it does over every service state, every pattern of
failing calls and every run. `dafny verify dfyconfig.toml` checks all of it.

## What is modelled

**A TableBucket pass** reads five settings (encryption, storage class, tags, policy, maintenance) through six APIs,
compares them field by field with the declared spec, and issues a sequence of separate writes, each of which can fail.
`BucketPass` says what each function computes and which calls it makes; `BucketManager` holds the code itself, objects
edited in place and a client that is called, each method proved equal to its specification. `BucketConvergence` and
`BucketRuns` prove convergence with a measure; `BucketExactness` says what a run never touches and exactly when a pass
settles; `PassConditions` says what the conditions show after it; `BucketMeaning` says of the spec, the service's state
and the calls themselves what settled, different, read, written and stored mean, without the functions the other
modules use; `BucketCreate` covers creation and late initialisation.

**A Table pass** reads by ARN, then renames, moves the metadata location and edits tags. Renames, location writes and
deletions carry the version token last seen. `TableService` is a service with any number of foreign writers acting
between any two calls; `TableSafety` and `TableConvergence` prove safety over all interleavings and convergence when
nobody interferes; `TableGuard` says exactly what the token is worth; `TableManager` holds the code; `TableDelta` is
the comparison over nested Iceberg metadata; `TableMeaning` is to tables what `BucketMeaning` is to buckets.

**Around them**: the tag algebra (`Tags`), maintenance narrowing and coverage (`Maintenance`), the create payload
(`CreatePayload`), cross-resource references (`References`), the condition state machine (`Conditions`), the concurrent
manager cache (`ManagerCache`), and the generated deep copies on the heap with their callers (`DeepCopy`,
`ObjectCopies`). Elsewhere a pointer that is only read or replaced is an `Option`, and an object's `DeepCopy` copies
values; `ObjectCopies` is where the aliasing those values abstract from is settled.

## Contracts of what is outside the repository

- The bucket service stores and echoes what is Put; maintenance sub-fields a Put leaves undeclared are anything it likes
  (`fill`). GetTableBucketPolicy answers NotFoundException just when there is no policy.
- Any call can be turned down, or be carried out and its reply be lost (`Fault`), independently of all others.
- The table service keys tables by ARN, keeps names unique per bucket and namespace, replaces a table's token at every
  change of its name or metadata location, never reuses a token, and gives no two tables the same one. A reply that
  shows a table may leave the token out (`tells`). A read that names a table both by ARN and by place is turned down.
- `DifferentAt` matches a path and everything below it; `HasNilDifference` is disagreement about nil;
  `GetTagsDifference` returns differences of sets of pairs; `Merge` lets existing tags win; `MapStringStringPEqual` and
  the semantic `DeepEqual` on lists of fields are structural equality.
- Policy documents are compared through `parse`, which numbers equivalent documents alike and rejects invalid ones.
- A pass composes EnsureTags, ReadOne, newResourceDelta, the update and LateInitialize in the order in which the runtime
  drives them. What it stores: the declared spec, the status of the last object returned, conditions included, and,
  after an update, the late-initialised fields. Controller tags are never stored.

## Where the code and what is said about it differ

- Maintenance types dropped from the spec are left alone, although the comment at
  pkg/resource/table_bucket/hooks.go:348-351 says they are disabled (`OnlyDeclaredTypesArePut`).
- A maintenance type the read does not recognise can be declared but is never seen in place (`EverCoveredIff`).
- A metadata location the spec leaves out is not written, so its difference can stay for ever; exactly when is
  `UnsetLocationDeltaStays`.
- When the name and a declared location both differ, the location write still uses the old name and fails: one pass is
  enough exactly when not both differ (`TwoPassesSuffice`).
- `ResolveReferences` says it copies its input; it edits it and hands it back (`ResolveTableReferences`). Clearing undoes
  it exactly when no reference stands beside a value of its own (`ClearUndoesResolveIff`).
- Terminal and Recoverable can both be True; exactly when is `BothTrueIff`.
- One cache key can yield several managers, because the lock is released between the lookup and the store
  (`TwoManagersForOneKey`); an entry is final exactly when no call that missed on its key is in flight
  (`EntryIsFinalIff`).
- A read that is not told the version token makes the writes after it go without one, and then they can overwrite a
  commit nobody saw or land on another table (`UntoldPassHitsAnotherTable`); they are safe exactly when they carry the
  token or are renames that cannot take effect (`GuardProtectsIff`).

"Well-formed" below means `Fine`: each setting of the spec either can be echoed (`Echoable`: no "" where the service
returns nil, a policy that is non-empty and parseable, maintenance of the recognised type with a non-empty status and
days in 0..2^31-1) or has nothing left to write. The `...SettlesIff` lemmas and `RoundTripIff` show that a Put settles
its setting exactly in those cases.

## Model

| member | source | states |
|---|---|---|
| BucketRuns.PassIsSound | pkg/resource/table_bucket/hooks.go:203-251 | For a well-formed spec, any state and any failures: every event of a pass lowers its own setting's measure if it is a write that took effect and otherwise changes nothing; no setting ever has more to write afterwards; a pass without error leaves nothing to write; a settled bucket gets no write; without failures the pass succeeds |
| BucketRuns.RunIsBounded | pkg/resource/table_bucket/hooks.go:203-251 | Over any run of passes, the writes to a setting that took effect plus what is still pending never exceed what was pending at the start; a setting not written keeps its value |
| BucketRuns.RunSettles | pkg/resource/table_bucket/hooks.go:203-251 | A run with one error-free pass ends settled, whatever failed before and after |
| BucketRuns.SettledStaysQuiet | pkg/resource/table_bucket/delta.go:33-95 | Once settled, no pass of any later run issues a write, not even a failing one (no churn) |
| BucketRuns.NextPassSettles | pkg/resource/table_bucket/hooks.go:203-251 | As soon as calls stop failing, one pass brings the measure to 0, and it writes exactly when the measure was not 0 |
| BucketRuns.UnsetSettingsArePreserved | pkg/resource/table_bucket/hooks.go:475-537 | Encryption, storage class and maintenance the spec leaves unset keep the service's value through every run |
| BucketExactness.UndeclaredTypesAreKept | pkg/resource/table_bucket/hooks.go:268-311 | Over every run, of any spec and with any failures, the service keeps its configuration of every maintenance type the spec does not declare |
| BucketExactness.PassSettlesIff | pkg/resource/table_bucket/hooks.go:203-251 | With the ARN recorded and no failing call, a pass settles everything exactly when the spec is well-formed |
| BucketExactness.StageLeavesUnsettled | pkg/resource/table_bucket/hooks.go:224-248 | Writing a setting that cannot be echoed leaves it as pending as before |
| PassConditions.PassShowsOutcome | pkg/resource/table_bucket/manager.go:97-167 | Whatever fails: an error-free pass leaves neither Terminal nor Recoverable True, no pass adds a second one, and the runtime is told the Terminal error exactly when the error is classified so |
| PassConditions.TablePassShowsOutcome | pkg/resource/table/manager.go:97-167 | The same for a pass over a table, with foreign writers between any calls |
| BucketRuns.FindChangesNothing | pkg/resource/table_bucket/sdk.go:57-131 | The six reads change nothing, and a read that succeeds shows the state as it is, whichever reads failed before it |
| BucketRuns.LateInitPends | pkg/resource/table_bucket/manager.go:259-275 | Storing late-initialised fields never leaves more to write and keeps the spec well-formed |
| BucketMeaning.SettledIff | pkg/resource/table_bucket/delta.go:33-95 | Settled, the measure the results on runs are about, means that everything declared is in place at the service: key and algorithm equal, the class equal, exactly the wanted tags apart from `aws:` ones, a policy there exactly when declared and parsing to the same document, every declared maintenance part as declared |
| BucketMeaning.NextPassPutsInPlace | pkg/resource/table_bucket/hooks.go:203-251 | A pass without failures puts everything a well-formed spec declares in place in that sense, and writes exactly when not everything was |
| BucketMeaning.ComparedIs | pkg/resource/table_bucket/delta.go:33-95 | When each of the six fields differs, said of the two specs: encryption up to the key reference, tags up to nil against "", policies as documents with an unparseable one different from all, maintenance when a declared part is not observed |
| BucketMeaning.ComparedSpecIs | pkg/resource/table_bucket/manager.go:295-368 | What a pass compares with the observation is the declared spec with every observed `aws:` tag as observed, every other declared tag as declared, and the controller's where none is declared |
| BucketMeaning.ReadErrorsAre | pkg/resource/table_bucket/sdk.go:57-131 | With the ARN recorded and the first call failing, the result is NotFound exactly for an API error NotFoundException, otherwise that error, and no second call is made; without an ARN it is NotFound and no call is made |
| BucketMeaning.SixReads | pkg/resource/table_bucket/hooks.go:56-171 | The five further reads in order, each made only if those before it went well, where the missing policy, and no other failure, is passed over |
| BucketMeaning.MissingBucketIsReported | pkg/resource/table_bucket/sdk.go:81-87 | A pass over a bucket that is gone makes one call, ends with NotFound and keeps the stored spec |
| BucketMeaning.ObservationIs | pkg/resource/table_bucket/hooks.go:56-171 | Each field of spec and status after a read that succeeds, in terms of what the service has |
| BucketMeaning.DefaultsAre | pkg/resource/table_bucket/sdk.go:291-309 | Region, partition and account are filled from the manager, and conditions with an empty list, only where they are nil; nothing else changes |
| BucketMeaning.UpdateIsOrdered | pkg/resource/table_bucket/hooks.go:224-248 | The calls of any update come in the order encryption, storage class, untag, tag, policy, maintenance |
| BucketMeaning.UpdateCallsAre | pkg/resource/table_bucket/hooks.go:316-537 | Which calls an update makes: each exactly when its field differs and there is something to write, with exactly the declared content |
| BucketMeaning.MaintenanceCallsAre | pkg/resource/table_bucket/hooks.go:352-407 | Each declared maintenance type is among what an update does: put with its narrowed value if its days fit 32 bits, otherwise a point at which the update gives up with that error |
| BucketMeaning.StoredSpecIs | pkg/resource/table_bucket/manager.go:211-275 | The spec a pass stores is the one declared, with encryption, maintenance and storage class filled from an observation only where unset and only after an update that succeeded |
| BucketMeaning.StoredStatusIs | pkg/resource/table_bucket/manager.go:97-167 | The status a pass stores is what the read showed, or, if that failed, the old one, apart from defaults and conditions |
| BucketConvergence.StagesSettle | pkg/resource/table_bucket/hooks.go:224-248 | The update's stages, one after the other from a fresh observation: each settles its setting or stops on an error, none disturbs another, no call is made when nothing is pending |
| BucketConvergence.ExecuteSettles | pkg/resource/table_bucket/hooks.go:203-251 | A plan for one setting, under any failures, makes progress at each write and leaves the other four settings alone |
| BucketConvergence.UpdatePlanIsStages | pkg/resource/table_bucket/hooks.go:224-248 | The calls derived from the delta against the tag-mirrored desired object are the stages of the stored spec |
| BucketConvergence.TagPlanSettles | pkg/resource/table_bucket/hooks.go:411-471 | Untag, then tag: each call that is made lowers the number of differing keys, and both bring it to 0 |
| BucketConvergence.MaintenanceStage | pkg/resource/table_bucket/hooks.go:352-407 | For a well-formed spec the maintenance Puts settle, whatever the service fills in and in whatever order the map is visited |
| BucketConvergence.OnlyDeclaredTypesArePut | pkg/resource/table_bucket/hooks.go:364-405 | syncMaintenance never names a type the spec does not declare, and puts the narrowed declared value |
| BucketConvergence.EncryptionSettlesIff | pkg/resource/table_bucket/hooks.go:475-506 | Writing the declared encryption and reading it back settles exactly when the algorithm is not "" |
| BucketConvergence.StorageClassSettlesIff | pkg/resource/table_bucket/hooks.go:510-537 | Writing the declared storage class and reading it back settles exactly when it is not "" |
| BucketConvergence.PolicySettlesIff | pkg/resource/table_bucket/hooks.go:316-343 | The one policy call settles exactly for a nil policy or a non-empty parseable one |
| BucketManager.NewResourceDelta | pkg/resource/table_bucket/delta.go:33-95 | The delta, asked by path, differs at exactly the fields that differ (maintenance: whose declared part is not covered), and is empty exactly when none does |
| BucketManager.ResourceManager.SetBucketConfigurations | pkg/resource/table_bucket/hooks.go:56-171 | Five reads in order, stopping at the first failure except a policy NotFoundException; on success every field is the service's value |
| BucketManager.RecognisedMaintenance | pkg/resource/table_bucket/hooks.go:148-168 | In any map order only the recognised type is kept, and an empty result is nil |
| BucketManager.ResourceManager.SdkFind | pkg/resource/table_bucket/sdk.go:57-131 | Returns a new object with the observation, NotFound without an ARN or for NotFoundException, or the error; the argument is not touched |
| BucketManager.ResourceManager.MergeOutput | pkg/resource/table_bucket/sdk.go:91-124 | The fields GetTableBucket returns, merged into the copy before the other reads |
| BucketManager.ResourceManager.SetStatusDefaults | pkg/resource/table_bucket/sdk.go:291-309 | Fills region, partition, account and conditions where they are nil and overwrites nothing |
| BucketManager.ResourceManager.EnsureTags | pkg/resource/table_bucket/manager.go:295-312 | Controller tags are added in place without overriding declared ones |
| BucketManager.ResourceManager.FilterSystemTags | pkg/resource/table_bucket/manager.go:333-343 | Exactly the `aws:` keys and the listed keys leave the spec's map, in place; the others keep their values |
| BucketManager.ResourceManager.MirrorAWSTags | pkg/resource/table_bucket/manager.go:356-368 | The `aws:` tags of one object are written into the other, whose other tags stay |
| BucketManager.ResourceManager.ReadOne | pkg/resource/table_bucket/manager.go:97-115 | The observation with its conditions concluded, and the AWS tags mirrored into the object asked about only when the read succeeded; on an error a copy of the argument with the error in its conditions, and the error as reported |
| BucketManager.ResourceManager.Update | pkg/resource/table_bucket/manager.go:147-167 | The updated object, or a copy of latest, with the outcome in its conditions, and the error as reported |
| BucketManager.ResourceManager.OnError | pkg/resource/table_bucket/manager.go:397-417 | A new object with the error in its conditions, and the error, replaced exactly when a Terminal condition is True there |
| BucketManager.ResourceManager.OnSuccess | pkg/resource/table_bucket/manager.go:421-432 | A new object with Terminal and Recoverable concluded as by a success |
| BucketManager.ResourceManager.SyncEncryption | pkg/resource/table_bucket/hooks.go:475-506 | One Put of the declared encryption, or no call |
| BucketManager.ResourceManager.SyncStorageClass | pkg/resource/table_bucket/hooks.go:510-537 | One Put of the declared class, or no call |
| BucketManager.ResourceManager.SyncPolicy | pkg/resource/table_bucket/hooks.go:316-343 | A delete for nil or "", a Put otherwise |
| BucketManager.ResourceManager.SyncTags | pkg/resource/table_bucket/hooks.go:411-471 | Untag what is gone, then tag what is new or changed, the second only if the first succeeded |
| BucketManager.ResourceManager.SyncMaintenance | pkg/resource/table_bucket/hooks.go:352-407 | One Put per declared type in some order of the map, up to the first error, own or of the service |
| BucketManager.ResourceManager.SdkMaintenanceValue | pkg/resource/table_bucket/hooks.go:368-395 | The narrowed value, or the terminal error naming the first field out of range |
| BucketManager.ResourceManager.CustomUpdateTableBucket | pkg/resource/table_bucket/hooks.go:203-251 | The guarded stages in order, ending at the first error; the result has the desired spec and the observed status |
| BucketManager.ResourceManager.LateInitializeFromReadOneOutput | pkg/resource/table_bucket/manager.go:259-275 | Unset encryption, maintenance and storage class come from the observation, in a new object |
| BucketManager.ResourceManager.LateInitialize | pkg/resource/table_bucket/manager.go:211-247 | Reads again and late-initialises a copy marked LateInitialized=True, or returns the copy marked LateInitialized=False and Synced=False with the error |
| BucketManager.ResourceManager.Reconcile | pkg/resource/table_bucket/manager.go:97-167 | One pass of the code over the real client, conditions and reported error included, is the pass the proofs are about |
| BucketCreate.SdkCreate | pkg/resource/table_bucket/sdk.go:160-242 | The created bucket has what the payload declares; the object records the ARN and is marked Synced=False exactly when a policy or maintenance is declared |
| BucketCreate.CreateSettlesIff | pkg/resource/table_bucket/sdk.go:211-242 | After a create nothing is left to write exactly when encryption and storage class can be echoed, no policy is declared and the service's maintenance covers the declared one |
| BucketCreate.FirstPassAfterCreate | pkg/resource/table_bucket/sdk.go:183-207 | The first pass writes nothing when sdkCreate did not mark the object, and does write when a policy is declared |
| BucketCreate.LateInitialisation | pkg/resource/table_bucket/manager.go:259-275 | Set fields stay, the rest of the spec stays, doing it twice changes nothing, and the filled fields have no delta against the same observation |
| BucketCreate.CreateRequestIs | pkg/resource/table_bucket/sdk.go:211-242 | The create payload, field by field; it has no place for policy and maintenance |
| BucketCreate.CreatedObjectIs | pkg/resource/table_bucket/sdk.go:183-207 | The spec stays, the ARN is recorded, and a declared policy or maintenance, nothing else, puts Synced=False with the requeue message |
| BucketMeaning.LateInitConditionsAre | pkg/resource/table_bucket/manager.go:211-247 | A late initialisation that works puts LateInitialized=True, one whose read fails LateInitialized=False and Synced=False, and the rest of the status stays |
| Tags.ConvertToOrderedACKTags | pkg/resource/table_bucket/tags.go:36-52 | Every entry, nil values as "", whatever the order |
| Tags.FromACKTags | pkg/resource/table_bucket/tags.go:58-67 | Every entry back, and never a nil map |
| Tags.IgnoreSystemTags | pkg/resource/table_bucket/tags.go:74-81 | Deleting while ranging removes exactly the `aws:` and listed keys |
| Tags.SyncAWSTags | pkg/resource/table_bucket/tags.go:102-108 | The `aws:` entries of the latest map overwrite, nothing else changes |
| Tags.TagCalls | pkg/resource/table_bucket/hooks.go:421-432 | Deleting changed keys from the removed set in a loop yields the two argument sets |
| Tags.SyncTagsReachesDesired | pkg/resource/table_bucket/hooks.go:411-471 | Both calls lead from the observed to the desired tags; their key sets are disjoint; after the untag every key both observed and desired is still there; no call exactly when the tags agree |
| Tags.AwsTagsAreNeverTouched | pkg/resource/table_bucket/tags.go:83-108 | After mirroring, no call names an observed `aws:` key |
| Tags.PendingIsTheDifference | pkg/resource/table_bucket/hooks.go:411-471 | The keys the two calls name are exactly those at which the service differs from the target |
| Tags.TagCallsShrinkPending | pkg/resource/table_bucket/hooks.go:411-471 | Each call settles exactly the keys it names |
| Tags.FilterForgetsControllerTags | pkg/resource/table_bucket/manager.go:295-368 | After any mix of EnsureTags and mirroring, filtering gives what filtering alone gives |
| Tags.FilterIsIdempotent | pkg/resource/table_bucket/manager.go:333-343 | A filtered spec has no system tag and is stable under filtering |
| Tags.FilteredTagsAre | pkg/resource/table_bucket/manager.go:333-343 | FilterSystemTags removes exactly the `aws:` keys and the listed ones; every other tag survives with its value, nil becoming "" |
| Tags.EnsuredTagsAre | pkg/resource/table_bucket/manager.go:295-312 | After EnsureTags the keys are those declared and those of the controller; a declared tag keeps its value |
| Tags.MirroredTagsAre | pkg/resource/table_bucket/manager.go:356-368 | After mirroring every observed `aws:` tag has its observed value and every other tag the one it had |
| Tags.TagCallsAre | pkg/resource/table_bucket/hooks.go:421-432 | Untag names exactly the keys that are gone; tag exactly the new or changed ones, with their values |
| Maintenance.DaysToInt32 | pkg/resource/table_bucket/hooks.go:35-40 | Succeeds exactly on 0..2^31-1, with the same value |
| Maintenance.MaintenanceNeedsSync | pkg/resource/table_bucket/hooks.go:279-311 | With its early returns, in any map order: false exactly when every declared sub-field is observed as declared |
| Maintenance.CoveredIsReflexive | pkg/resource/table_bucket/hooks.go:279-311 | "Observed covers desired" is reflexive |
| Maintenance.CoveredIsTransitive | pkg/resource/table_bucket/hooks.go:279-311 | "Observed covers desired" is transitive |
| Maintenance.NarrowingSucceedsIff | pkg/resource/table_bucket/hooks.go:368-395 | Narrowing succeeds exactly on in-range days; otherwise the error is terminal |
| Maintenance.RoundTripIff | pkg/resource/table_bucket/hooks.go:175-195 | Put and read back restore every declared sub-field, whatever the service fills in, exactly for the recognised type, a status other than "" and in-range days |
| Maintenance.EverCoveredIff | pkg/resource/table_bucket/hooks.go:148-168 | Some service state can show a declared entry exactly when its type is recognised, its status is not "" and its days fit 32 bits |
| Maintenance.RequestCarriesDeclared | pkg/resource/table_bucket/hooks.go:364-396 | A request that can be built has the declared status and exactly the declared days, each in its own field |
| Maintenance.ReadShowsRecognised | pkg/resource/table_bucket/hooks.go:148-195 | A read shows the recognised type and no other, with the service's status and each of its days in its own field |
| TableSafety.RunIsSafe | pkg/resource/table/hooks.go:117-171 | Over every run, any foreign writers between any calls, any failures: a tag write changes only the table with the recorded ARN; a rename or location write carries a token exactly when the last ARN read was told one, and then takes effect only on that table and only if it is what that read saw |
| TableSafety.PassIsSafe | pkg/resource/table/hooks.go:76-112 | The same for one pass, and the ARN stays recorded |
| TableSafety.AimedWriteIsSafe | pkg/resource/table/hooks.go:117-171 | A write with the observed token hits the observed table unchanged, or nothing, even if another table took its name |
| TableSafety.DeleteIsSafe | pkg/resource/table/sdk.go:475-494 | The same for the deletion request |
| TableSafety.ToldRunIsSafe | pkg/resource/table/hooks.go:117-171 | Where every read is told the token, every write of every run is safe |
| TableGuard.GuardProtectsIff | pkg/resource/table/hooks.go:124-166 | A rename, location write or deletion derived from an observation is safe against everything other clients can do in between exactly when it carries the token, or is a rename that cannot take effect (no new name, or the name it has) |
| TableGuard.ReadsObserve | pkg/resource/table/sdk.go:93-148 | What a pass reads is such an observation, with a token just when the reply had one |
| TableGuard.UntoldPassHitsAnotherTable | pkg/resource/table/hooks.go:145-171 | For every table with a differing declared location whose token the reply leaves out, there are foreign writers that make the pass write the location into another table |
| TableSafety.FindSees | pkg/resource/table/sdk.go:59-182 | Token and ARN of an observation come from one state, which the first read of the pass saw |
| TableSafety.InvokeIsSound | pkg/resource/table/hooks.go:117-171 | Every call and all foreign writers keep names and tables consistent and never change a table without replacing its token |
| TableMeaning.ReadErrorsAre | pkg/resource/table/sdk.go:84-182 | NotFound exactly for an API error of that code from the first call, which is then the only one; any other error as it is, of the tag listing too |
| TableMeaning.ObservationIs | pkg/resource/table/sdk.go:106-170 | Each field of spec and status after a read that succeeds; what the service does not return stays as declared |
| TableMeaning.UpdateCallsAre | pkg/resource/table/hooks.go:76-235 | The calls of an update in order, each exactly when its field differs and there is something to write, and each naming the table as observed |
| TableMeaning.StoredIs | pkg/resource/table/manager.go:97-167 | A pass never changes the stored spec; the status is what the read showed, or, if that failed, the old one, apart from defaults and conditions |
| TableMeaning.DefaultsAre | pkg/resource/table/sdk.go:497-515 | Region, partition and account are filled from the manager, and conditions with an empty list, only where they are nil; nothing else changes |
| TableConvergence.TwoPassesSuffice | pkg/resource/table/hooks.go:76-112 | Undisturbed and with the name free, two passes reach the declared name, location and tags and later passes write nothing; one pass is enough exactly when not both name and declared location differ |
| TableConvergence.PassOutcome | pkg/resource/table/hooks.go:76-112 | The three things an undisturbed pass can do, and that it writes exactly when something declared is not reached |
| TableConvergence.ReachedStaysQuiet | pkg/resource/table/hooks.go:76-112 | A table that has what its spec declares is never written again |
| TableConvergence.TakenNameBlocks | pkg/resource/table/hooks.go:117-139 | A pass ends in a conflict exactly when another table holds the wanted name, and then changes nothing |
| TableConvergence.OldNameIsGone | pkg/resource/table/hooks.go:145-171 | After the rename, a location write that still uses the old name fails and changes nothing |
| TableConvergence.UnsetLocationDeltaStays | pkg/resource/table/hooks.go:145-171 | On a table that is as declared the delta still shows the location exactly when the spec leaves it out and the service has one; no call is made for it |
| TableConvergence.SettlesTags | pkg/resource/table/hooks.go:175-235 | The tag calls of an undisturbed update reach the mirrored target, and are made exactly when it differs |
| TableManager.ResourceManager.SdkFind | pkg/resource/table/sdk.go:59-182 | Reads by ARN once recorded, by name before; a new object with the observation, or NotFound, or the error |
| TableManager.ResourceManager.DescribeRequest | pkg/resource/table/sdk.go:75-91 | Of the four fields filled in, the ARN and the other three never stand together, which the service would turn down; in every valid service state the reply is the table with the recorded ARN whatever its name is by now, before that the table at the declared place, or that there is none |
| TableManager.ResourceManager.MergeOutput | pkg/resource/table/sdk.go:106-170 | What the response merges into the copy, field by field |
| TableManager.ResourceManager.SetResourceTags | pkg/resource/table/hooks.go:39-67 | The listed tags replace the spec's, nil for none; no call without an ARN |
| TableManager.ResourceManager.ReadOne | pkg/resource/table/manager.go:97-115 | The observation with its conditions concluded and AWS tags mirrored into the object asked about; on an error a copy of the argument with the error in its conditions, and the error as reported |
| TableManager.ResourceManager.Update | pkg/resource/table/manager.go:147-167 | The updated object, or a copy of latest, with the outcome in its conditions, and the error as reported |
| TableManager.ResourceManager.Rename | pkg/resource/table/hooks.go:117-139 | One rename of the table as observed to the desired name, with the observed token |
| TableManager.ResourceManager.UpdateMetadataLocation | pkg/resource/table/hooks.go:145-171 | One location write to the table as observed, with the observed token; none for a nil location |
| TableManager.ResourceManager.SyncTags | pkg/resource/table/hooks.go:175-235 | Untag, then tag, by ARN, the second only if the first succeeded |
| TableManager.ResourceManager.CustomUpdateTable | pkg/resource/table/hooks.go:76-112 | Rename, location, tags, each guarded by the delta, ending at the first error; desired spec with the observed status |
| TableManager.ResourceManager.Reconcile | pkg/resource/table/manager.go:97-167 | One pass of the code over the real client, conditions and reported error included, is the pass the proofs are about |
| TableDelta.NewResourceDelta | pkg/resource/table/delta.go:34-184 | The delta differs at exactly the fields that differ, and is empty exactly when both specs are equal up to nil against empty lists and maps, nil against "" tags and the key reference |
| TableDelta.NoDifference | pkg/resource/table/delta.go:34-184 | No field differs exactly when the normal forms are equal |
| TableDelta.NoDeltaIsAnEquivalence | pkg/resource/table/delta.go:34-184 | "No delta" is reflexive, symmetric and transitive over arbitrary metadata |
| TableDelta.CompareMetadata | pkg/resource/table/delta.go:70-130 | Nested branches record something below Spec.Metadata exactly when the normal forms differ |
| TableMeaning.DifferencesAre | pkg/resource/table/delta.go:34-184 | For each of the eleven fields exactly when the delta shows it, said of the two specs, and that it shows no other |
| TableMeaning.ComparedSpecIs | pkg/resource/table/manager.go:284-357 | The same for tables |
| CreatePayload.NewCreateRequestPayload | pkg/resource/table/sdk.go:273-439 | Succeeds exactly when every present id fits 32 bits and then carries the whole spec; otherwise names the first id out of range in traversal order |
| CreatePayload.NarrowList | pkg/resource/table/sdk.go:307-337 | The appending loop keeps length and order, or stops at the first id out of range |
| CreatePayload.PayloadIsExact | pkg/resource/table/sdk.go:292-417 | In a payload that is built, every field of every partition, schema and sort field and every id at every position has its exact value, list by list, with nil and empty lists told apart |
| CreatePayload.FirstBadIsFirst | pkg/resource/table/sdk.go:292-417 | The error's field is that of the first id that does not fit, and there is no error exactly when all fit |
| CreatePayload.ErrorNamesFirst | pkg/resource/table/sdk.go:292-417 | Which field the error names: that of the partition spec if it has one out of range, else of the schema, else of the write order, where a field is named before the order's own id |
| CreatePayload.PartitionError | pkg/resource/table/sdk.go:302-341 | Which field of a partition spec is named: that of the first field that does not fit, fieldId before sourceId, and specId only when all fields fit |
| CreatePayload.PayloadCarriesSpec | pkg/resource/table/sdk.go:273-439 | Name, namespace, bucket, format, encryption, storage class and tags are the spec's, and Iceberg metadata is there exactly when declared |
| CreatePayload.SdkCreate | pkg/resource/table/sdk.go:219-269 | Nothing is sent without a payload; ARN and token are recorded; a declared metadata location yields a requeue and Synced=False |
| References.ReferencedState | pkg/resource/table/references.go:141-189 | Accepts exactly objects with no Terminal=True, some Synced=True and a target value; otherwise the first of the three errors |
| References.ResolveField | pkg/resource/table/references.go:107-135 | One reference field: whether it asks, the value, or the first error met |
| References.AttemptResolvesIff | pkg/resource/table/references.go:107-189 | A reference resolves exactly when it names a usable object, and to that object's target |
| References.ResolveTableReferences | pkg/resource/table/references.go:59-81 | The input is edited in place, namespace first, bucket only if that worked; a validation error is returned only if nothing else fails |
| References.ClearTableReferences | pkg/resource/table/references.go:38-50 | A new object without the values beside references |
| References.ClearUndoesResolveIff | pkg/resource/table/references.go:38-101 | Clearing undoes resolving, even a half-done one, exactly when no reference stood beside a value; so always for validated specs |
| References.ResolvedFieldsAreUsable | pkg/resource/table/references.go:59-277 | However far a resolution gets: a field that was tried holds the target of the usable object its reference names, every other field is as declared, and an error is returned exactly when a reference could not be resolved or the spec is not valid |
| References.ResolveBucketReferences | pkg/resource/table_bucket/references.go:103-167 | The key ARN is resolved in place inside the encryption struct |
| References.EnsureReferences | pkg/resource/table_bucket/references.go:73-94 | A new object: the observation with the declared reference restored where it was lost |
| References.ClearBucketReferences | pkg/resource/table_bucket/references.go:42-52 | A new object without the key ARN beside a reference |
| References.ClearUndoesResolveBucketIff | pkg/resource/table_bucket/references.go:42-167 | Clearing undoes resolving exactly when reference and ARN were not both set; a resolved ARN is a usable key's |
| References.DeclaredKeyRefSurvivesReads | pkg/resource/table_bucket/references.go:42-94 | For every service state: the read loses the reference, and restoring then clearing keeps it and drops the ARN |
| References.EnsuringIsIdempotent | pkg/resource/table_bucket/references.go:73-94 | Restoring twice is restoring once, changes no concrete value, and does nothing where the reference is present or undeclared |
| References.StateErrorsAre | pkg/resource/table/references.go:141-189 | Which of the three errors an object is turned down with, in order, said of its conditions and its target |
| References.ValidIff | pkg/resource/table/references.go:85-101 | A spec is valid exactly when namespace and bucket are each given in one way, by value or by reference; otherwise the error says whether the first field at fault has both or neither |
| References.ResolvedBucketIs | pkg/resource/table_bucket/references.go:103-167 | Only the key ARN can change, to the target found; a failed attempt changes nothing and is the error, ahead of the complaint that both fields are set |
| References.EnsuredIs | pkg/resource/table_bucket/references.go:73-94 | The reference is written only where one is declared and none observed; everything else stays as observed |
| Conditions.UpdateConditions | pkg/resource/table_bucket/sdk.go:313-386 | The loop and the branches compute one step of the machine, or nothing when no Terminal, Recoverable or Synced condition exists |
| Conditions.RunShowsHistory | pkg/resource/table_bucket/sdk.go:313-386 | From an empty list, after any outcomes each of the two conditions is what the history says, and is True exactly when it carries a message |
| Conditions.RunKeepsOthers | pkg/resource/table_bucket/sdk.go:313-386 | From any list, all other conditions stay unchanged and in order, and no second Terminal or Recoverable one appears |
| Conditions.RepeatingIsIdempotent | pkg/resource/table_bucket/sdk.go:313-386 | Repeating an outcome changes nothing |
| Conditions.BothTrueIff | pkg/resource/table_bucket/sdk.go:337-352 | On the list a run from the empty one ends with, both conditions are True exactly after one or more terminal errors right behind a recoverable one |
| Conditions.TerminalErrorsAre | pkg/resource/table_bucket/sdk.go:391-406 | An error is terminal exactly when it says so itself, is one of the two secret errors, or carries an API error BadRequestException; it then puts a True Terminal condition with the text of the error or of the API error, and leaves all else |
| Conditions.OtherOutcomesAre | pkg/resource/table_bucket/sdk.go:354-374 | Any other outcome lowers Terminal; an error then puts a True Recoverable condition with its text, no error lowers Recoverable |
| Conditions.ApiErrorsRaise | pkg/resource/table_bucket/sdk.go:313-386 | After an API error, with at most one Terminal condition before: Terminal is True exactly for BadRequestException and Recoverable is True for every other code |
| Conditions.UpdatesIff | pkg/resource/table_bucket/sdk.go:376-385 | An object is returned as it was only after a success and without a condition of the three kinds |
| Conditions.OnError | pkg/resource/table_bucket/manager.go:397-417 | The error is replaced exactly when a Terminal condition is True afterwards, which with at most one Terminal condition means exactly when it says it is terminal, is one of the two secret errors or carries BadRequestException |
| ManagerCache.RunsAreValid | pkg/resource/table_bucket/manager_factory.go:48-79 | Over every interleaving of any number of calls: cached and obtained managers were built for the matching key, nobody reads while somebody writes, no key leaves the cache, a returned manager stays |
| ManagerCache.SettledForever | pkg/resource/table_bucket/manager_factory.go:62-77 | Once no call that missed on a key is in flight, its entry never changes, and calls still without a manager can only get that entry |
| ManagerCache.EntryIsFinalIff | pkg/resource/table_bucket/manager_factory.go:62-77 | In every reachable state, a cached entry can never change again exactly when no call that missed on its key is in flight |
| ManagerCache.MissStores | pkg/resource/table_bucket/manager_factory.go:68-77 | From every valid state, a call that missed can be led past all readers and the writer to store a manager newer than all before |
| ManagerCache.TwoManagersForOneKey | pkg/resource/table_bucket/manager_factory.go:62-77 | A concrete interleaving in which two calls with the same arguments return different managers |
| ManagerCache.KeyIsInjective | pkg/resource/table_bucket/manager_factory.go:58-61 | Without '/' in account id and region, equal keys mean equal arguments |
| ManagerCache.Factory.ManagerFor | pkg/resource/table_bucket/manager_factory.go:48-79 | One call on its own returns the cached manager or builds and stores one |
| ManagerCache.AloneIsSequential | pkg/resource/table_bucket/manager_factory.go:48-79 | The concurrent steps taken without interruption are that method |
| DeepCopy.CopyPointer | apis/v1alpha1/zz_generated.deepcopy.go:30-34 | nil stays nil; otherwise a fresh cell with the same value |
| DeepCopy.DeepCopyEncryption | apis/v1alpha1/zz_generated.deepcopy.go:28-55 | Same value, all objects fresh, through the key reference and its reference |
| DeepCopy.DeepCopyStrings | apis/v1alpha1/zz_generated.deepcopy.go:859-874 | A map to pointers: same keys, nil entries kept, nil map and empty map told apart, all entries fresh |
| DeepCopy.DeepCopyMaintenance | apis/v1alpha1/zz_generated.deepcopy.go:828-843 | The same for maintenance values with nested settings |
| DeepCopy.DeepCopyPartitionFields | apis/v1alpha1/zz_generated.deepcopy.go:161-171 | A slice of pointers of any length: same entries in order, nil entries kept, nil and empty told apart, all fresh |
| DeepCopy.DeepCopySchemaFields | apis/v1alpha1/zz_generated.deepcopy.go:190-203 | The same for schema fields |
| DeepCopy.DeepCopySortFields | apis/v1alpha1/zz_generated.deepcopy.go:276-288 | The same for sort fields |
| DeepCopy.DeepCopyIcebergMetadata | apis/v1alpha1/zz_generated.deepcopy.go:78-121 | Same value, all objects fresh, over arbitrary nested metadata |
| DeepCopy.DeepCopyTableSpec | apis/v1alpha1/zz_generated.deepcopy.go:1093-1171 | For every TableSpec, with any sharing inside it: the copy shows the same value within objects that are all fresh |
| DeepCopy.DeepCopyTableBucketSpec | apis/v1alpha1/zz_generated.deepcopy.go:821-885 | The same for every TableBucketSpec |
| DeepCopy.DeepCopyTableStatus | apis/v1alpha1/zz_generated.deepcopy.go:1174-1235 | The same for every TableStatus, nil conditions included |
| DeepCopy.DeepCopyTableBucketStatus | apis/v1alpha1/zz_generated.deepcopy.go:888-930 | The same for every TableBucketStatus |
| ObjectCopies.TableShowsOneValue | apis/v1alpha1/zz_generated.deepcopy.go:1093-1161 | A TableSpec shows one value only, so the copy is structurally equal to the original |
| ObjectCopies.TableBucketShowsOneValue | apis/v1alpha1/zz_generated.deepcopy.go:821-875 | The same for a TableBucketSpec |
| ObjectCopies.StartTableUpdate | pkg/resource/table/hooks.go:86-88 | The update's object has the desired spec and the observed status in fresh objects; desired and latest are as before |
| ObjectCopies.StartTableBucketUpdate | pkg/resource/table_bucket/hooks.go:213-215 | The same for table buckets |
| ObjectCopies.LateInitialize | pkg/resource/table_bucket/manager.go:259-275 | Although pointers move between copies, the result shows the late-initialised spec and shares no object with observation or latest |
| ObjectCopies.EnsureReferences | pkg/resource/table_bucket/references.go:73-94 | Although it writes through pointers, desired and latest still show what they showed, and the result, the restored spec, shares nothing with them |

## Left out

- The Create and Delete wrappers' onError and onSuccess, which are the ones proved for ReadOne and Update.
- Reasons and transition times in the condition machine, which no code in the repository reads back.
- The outer reconciler of the runtime, finalizers, requeue delays and Kubernetes patching: not in the repository.
- ResolveReferences, ClearResolvedReferences and EnsureReferences are proved on their own, not as steps of a pass.
- sdkDelete apart from the deletion request's guard, and ARNFromName, IsSynced and incompleteLateInitialization, which compute constants or one expression.
- Nil resources in newResourceDelta; every pass compares two objects that exist.
- A create response without an ARN: the services modelled always return one.
- newResourceManager failing inside ManagerFor: it never returns an error.
- Writer preference of the read-write lock: the model lets readers in whenever no writer holds it, which allows more interleavings.
- IAM policy parsing and AWS-side validation of names, keys and documents.
- Transport, metrics, logging, contexts and clocks: a call is its effect on the service and success or an error.
- Foreign writers to a table bucket during a run; the convergence results assume there are none. For tables they are modelled.
- The Namespace resource, and the copies of tags.go, manager_factory.go and sdk.go's condition code in the other packages, which are the same code.
- Deep copies of summaries, replication types, lists and Kubernetes object metadata: the pattern proved for the specs. Deep copies of types owned by the runtime (references, conditions, times) are modelled by the same pattern.
- The order in which a struct's fields are copied: the model copies all fields and then fills the new cell.
- CreatePayload.NewCreateRequestPayload: asks that lists hold no nil elements, which the code would dereference.
- TableConvergence.TwoPassesSuffice: takes the declared bucket ARN to be the table's own and the name to be declared, as the API requires of a Table.
- Descriptors, identifiers, registration and generated configuration.
