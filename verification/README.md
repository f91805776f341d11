# Offset, shutdown, clone, codec and state protocols, modelled and proved

This project models the stateful protocols of the toolkit and proves what they promise, for every
input, every run and every order of concurrent steps.

* **Kafka consumers.** Two backends read waves of records, hand them to one worker per partition,
  commit, and turn failures into per-partition rewinds while rebalances take partitions away.
  `RewindPlans`, `ReportOrder`, `PositionLists`, `PartitionWorkers` and `RecordGrouping` are what they
  share. The KafkaJS-compatible backend is the step system `FranzConsumer`, with `FranzSafety` (no record is
  lost), `FranzLosses` (exactly when one is), `FranzAtMostOnce` and the fields in `FranzRecovery`. The
  librdkafka backend is `ConfluentConsumer`, with `ConfluentSafety` (ownership),
  `ConfluentFailClosed` (rewinds), `ConfluentAtMostOnce` and the fields in `ConfluentFields`.
* **Kafka producer.** `ProducerShutdown` interleaves admission, draining, metadata refreshes and Close
  under its three policies; `ProducerFields` has the fields and loops.
* **Configuration values.** `GraphClone` and `CloneLaws`: the deep clone of a cyclic, shared object graph.
* **gRPC.** `Decimals`, `DynamicCodec`, `DynamicFields`, `DynamicSources` and `DynamicEncoding`: protobuf
  messages of any descriptor to maps and back.
* **Feature flags.** `SseScanner` and `SseEvents`: the event stream. `FeatureRevisions`, `FeatureClient`
  and `StaleRetention`: which context a value belongs to, and how long a snapshot stays ready.
* **Encryption caches, migrations, default owners, token buckets.** `LruCache` and `EncryptionCaches`;
  `Migrations`, `MigrationLaws` and `MigrationIds`; `DefaultOwners`; `TokenBuckets`.

A protocol with concurrent parts is a step system: a state, the events that may happen, and a run as a
sequence of states joined by events. Whatever is updated in place is also a class whose methods are proved
to take the state it represents where the steps take it. Drivers, the broker, user code, clocks and
faults are events or parameters.

## Assumptions

* A fetch returns everything the log holds from where it starts to its last record, in offset order; after a
  successful seek the next read starts there; the broker refuses commits of a member it has evicted.
* Other members never lower a committed offset, and only commit for partitions they own.
* For `ConfluentAtMostOnce`: an assignment starts at the committed offset, past every committed record.
* The librdkafka callbacks follow the eager or the cooperative protocol: an eager revocation names the
  whole assignment. Reading a message and taking its assignment snapshot are one step.
* One delivery report arrives for each accepted message.
* Opening a freshly sealed text gives its message back; narrowing a widened `float32` changes nothing.
* Clocks do not run backwards, and an expired timer's callback runs at its time.

## Findings

Properties that do not hold as one would state them. Each has its exact condition, and all but the last
a run or input that shows it.

* **A fatal poll error skips records.** An error that is neither transient nor a rewind gets no rewind,
  though records may have come with it. A record is lost exactly when one of them was still due:
  `FranzSafety.FatalPollLosesExactlyWhatWasDue`, `FranzLosses.FatalPollLosesRecord`.
* **Background auto-commit loses a record.** A success ends the remembered position before the mark is
  committed; if the client is then replaced, nothing leads back to the records behind it. A run loses
  nothing exactly when each partition it gives up is covered: `FranzLosses.RunLosesNothingIff`,
  `FranzLosses.UnflushedMarkLosesRecord`.
* **A commit before the handler may fail and have been applied.** The record is rewound, but if the
  partition is lost and regained, the committed offset is believed and no handler sees the record:
  `FranzLosses.RunSkipsNothingIff`, `FranzLosses.AppliedCommitSkipsRecord`.
* **Leader epochs depend on report order** exactly when two reports plan the earliest offset of a
  partition with different epochs: `ReportOrder.EpochIgnoresOrderIffUntied`, `ReportOrder.ReportOrderShows`.
* **A oneof named like a field's JSON name breaks the codec's round trip,** for some message of exactly
  the types that reach such a oneof: `DynamicFields.ClashFreeIff`, `DynamicEncoding.SpoiledRoundTrip`,
  `DynamicEncoding.ClashBreaksRoundTrip`.
* **A checksum recorded for an unapplied migration that has none compiled in** makes a successful Run
  leave a state that every later call refuses: `MigrationLaws.RunResultValidatesIff`,
  `MigrationLaws.StaleChecksumSpoilsRun`.
* **RevertOne is not idempotent.** A repeated call that succeeds has reverted one migration more exactly
  if the first failed with its checkpoint stored and another migration was left to revert:
  `MigrationLaws.RevertOneTwice`, `MigrationLaws.RevertOneGoesFurther`.
* **Default attributes with empty lists** let an accepted event differ from its request in such keys:
  `FeatureRevisions.AlwaysExactIff`. The comparison of attribute maps is wrong exactly when an empty list
  stands against a missing key, which still leaves `Clear` right: `FeatureRevisions.MapsEqualIff`,
  `FeatureRevisions.EmptyListPassesForMissing`.
* **Encrypt is not a function of its message.** It answers with the freshly sealed text in every state
  exactly if no other text that opens to the message fits the cache, and such a text, once decrypted, is
  its answer: `EncryptionCaches.EncryptSealsIff`, `EncryptionCaches.EncryptReturnsTheDecryptedText`.
* **Overlapping slices of one array are separated by the clone** unless they are the same slice:
  `CloneLaws.SharingIsKept`, `CloneLaws.OverlapIsTakenApart`.
* **An entry larger than the whole cache clears it,** and only such a one does: `LruCache.StoredContents`.

## Model

| member | source | states |
|---|---|---|
| RewindPlans.PlanIsPointwiseMinimum | kafka/consumer.go:342-397 | The plan of any error tree has one position per partition named by an outermost planning node, and it is one of those with the least offset. |
| RewindPlans.ConsumerRewindPositions | kafka/consumer.go:342-397 | The walk and the sort return that plan as a list sorted by partition, and report a decision exactly when a planning node was met. |
| RewindPlans.PlanIgnoresReportOrder | kafka/consumer.go:342-397 | Reordering the joined worker errors changes no planned offset. |
| ReportOrder.EpochIgnoresOrderIffUntied | kafka/consumer.go:342-397 | The joined plan, leader epochs included, is the same for every order of the worker reports if and only if no two reports plan the earliest offset of a partition with different positions. |
| ReportOrder.ReportOrderShows | kafka/consumer.go:342-397 | Two failed handlers whose plan depends on which is joined first. |
| RewindPlans.MergePositions | kafka/confluent.go:2099-2117 | Merging two lists keeps the earliest position of each partition, once. |
| RewindPlans.DecisionIsNeverOverridden | kafka/consumer.go:329-397 | Once some layer has decided, no chain of wrappers around it changes the plan. |
| RewindPlans.SuppressedIffEveryLeafIsTheRunError | kafka/consumer.go:176-206 | An error ends a run quietly exactly when the run's context has ended and every leaf of its non-empty tree is the run's own error. |
| PartitionWorkers.ReportPlansFirstUnsettled | kafka/consumer.go:111-171 | Every failed message pass plans the failed record, or, once its boundary is behind it, the next record or nothing. |
| PartitionWorkers.ProcessMessageGroup | kafka/confluent.go:1667-1795 | A pass stops at the first record that does not complete; it hands over exactly the visible records up to there and reports a rewind to the first unsettled one. |
| PartitionWorkers.ProcessBatchGroup | kafka/confluent.go:1990-2050 | A batch is handed over whole without its markers, and a failure plans its first visible record unless it was committed first. |
| PositionLists.CollectIsRemember | kafka/franz_kafkajs2_compat_consumer.go:1074-1080 | Merging a list into the pending positions is the pointwise earlier position. |
| RecordGrouping.GroupBy | kafka/franz_kafkajs2_compat_consumer.go:527-541 | The grouping loop gives one group per key, holding exactly the records of that key in their order, and every record has its group. |
| RecordGrouping.MatchingKeepsOrder | kafka/franz_kafkajs2_compat_consumer.go:527-541 | What rises between records of one key before grouping rises within their group. |
| FranzRecovery.RecoveryState.RememberRecoveryPositions | kafka/franz_kafkajs2_compat_consumer.go:1074-1080 | The list of pending positions stands for the earlier of old and new per partition. |
| FranzRecovery.RecoveryState.CompleteRecoveryPosition | kafka/franz_kafkajs2_compat_consumer.go:1082-1097 | The in-place filter drops exactly the partition's position at or below the completed record. |
| FranzRecovery.RecoveryState.AdjustRecoveryOffsets | kafka/franz_kafkajs2_compat_consumer.go:1099-1128 | Fetch offsets after an assignment: a committed one stays and ends an earlier pending position, a symbolic one is replaced by the pending position; an ended context changes nothing. |
| FranzSafety.NoRecordIsEverLost | kafka/franz_kafkajs2_compat_consumer.go:404-483 | With synchronous commits, in message and batch mode, in every run whose fatal polls bring nothing due: each polled record is settled, in the wave, or at or above the next fetch of its partition; no commit passes a due record. |
| FranzSafety.StepKeepsBase | kafka/franz_kafkajs2_compat_consumer.go:1037-1072 | In every commit mode every step but a fatal poll keeps positions below what is owed and commits behind what is due. |
| FranzSafety.WavePlan | kafka/franz_kafkajs2_compat_consumer.go:543-596 | The plan of a failed wave names exactly the failed groups with records left, each at its resume position. |
| FranzSafety.FatalPollLosesExactlyWhatWasDue | kafka/franz_kafkajs2_compat_consumer.go:485-514 | A fatal poll loses a record if and only if it came with one still due. |
| FranzLosses.StepLosesExactlyUncovered | kafka/franz_kafkajs2_compat_consumer.go:255-295 | In every commit mode a step loses a record if and only if it gives up a partition on which an owed record has no committed offset, no remembered position at or below it and no mark committed on the way out. |
| FranzLosses.RunLosesNothingIff | kafka/franz_kafkajs2_compat_consumer.go:1037-1128 | A run in any commit mode has lost nothing if and only if each of its steps was harmless, judged on the state before it. |
| FranzLosses.UnflushedMarkLosesRecord | kafka/franz_kafkajs2_compat_consumer.go:1082-1097 | A run with background auto-commit, and no fatal poll, in which a fetched, unhandled record is lost. |
| FranzLosses.FatalPollLosesRecord | kafka/franz_kafkajs2_compat_consumer.go:499-514 | A run in which a fatal poll loses a record. |
| FranzLosses.RunSkipsNothingIff | kafka/franz_kafkajs2_compat_consumer.go:613-624 | With synchronous commits, counting as open what this member has not seen committed: nothing is lost if and only if no partition is given up whose committed offset has passed an open record. |
| FranzLosses.AppliedCommitSkipsRecord | kafka/franz_kafkajs2_compat_consumer.go:613-624 | A run in which a failed but applied commit before the handler makes a regained partition start after a record no handler saw. |
| FranzAtMostOnce.HandedAtMostOnce | kafka/franz_kafkajs2_compat_consumer.go:598-671 | With CommitBeforeHandler and manual commits no run hands a record to the handler at two steps, through failures, rewinds, lost partitions and new clients. |
| ConfluentSafety.HandlersRunOwned | kafka/confluent.go:1363-1433 | In every interleaving a running handler's partition is assigned with the generation its records were read under, and a wave dispatches one group of a partition at most. |
| ConfluentFailClosed.HandedInOrder | kafka/confluent.go:2347-2399 | In every run the one dispatched group of a partition holds its records in rising offset order. |
| ConfluentFailClosed.RewindsFailClosed | kafka/confluent.go:2052-2235 | Until Close nothing is read while a position waits to be sought, and a revoked partition never stays pending, even when the revocation races a failed seek. |
| ConfluentFailClosed.NothingReadIsSkipped | kafka/confluent.go:2052-2235 | Until Close a record read under the current assignment and not settled is in the wave, or its partition is read again from it or before it ahead of any further read. |
| ConfluentFailClosed.PendingIsEarliest | kafka/confluent.go:2052-2117 | In every run a pending position is the earliest of those requested for its partition since it was last not pending. |
| ConfluentAtMostOnce.SettledIsNeverHandedAgain | kafka/confluent.go:1667-1795 | In every run in which assignments start at or past what was committed: under any generation a settled record is never read again and never in a group given a lease. |
| ConfluentFields.ConsumerFields.MarkPartitionsAssigned | kafka/confluent.go:1363-1377 | The fields follow the assignment step: a new generation for every partition of the callback, an eager assignment replacing the rest. |
| ConfluentFields.ConsumerFields.ClearPendingRewindsForPartitions | kafka/confluent.go:2119-2143 | The in-place filter follows the revocation step: revoked partitions lose their pending position and are remembered as revoked. |
| ConfluentFields.ConsumerFields.RemoveSoughtRewinds | kafka/confluent.go:2200-2235 | Only positions equal to a copied one are removed, so that a concurrent recording survives. |
| ConfluentFields.ConsumerFields.RecordPendingRewinds | kafka/confluent.go:2052-2097 | After a failed seek the pending list becomes that of the step: the earlier position per partition still owned. |
| ConfluentFields.SeekAccepted | kafka/confluent.go:2237-2273 | A seek counts as done exactly if the answer names every requested position once, without an error. |
| ProducerShutdown.NoDriverClosedInUse | kafka/confluent.go:750-829 | In every run, under each policy and with a timed-out Close, a closed driver has no open call, no unconsumed report and no refresh that has not ended. |
| ProducerShutdown.EveryDriverClosedOnce | kafka/confluent.go:905-970 | No driver is closed twice, and when the shutdown is over each driver ever created was closed once. |
| ProducerShutdown.CountersAreExact | kafka/confluent.go:1047-1127 | At every moment inFlight counts open calls and refreshes, and pendingReports is what was accepted and not consumed, up to records between acceptance and counting. |
| ProducerShutdown.NothingAdmittedAfterClose | kafka/confluent.go:994-1033 | Once Close has begun no call is admitted and no driver created. |
| ProducerShutdown.NoRevival | kafka/confluent.go:2846-2927 | After Close nothing raises inFlight from zero, not even a refresh that starts late. |
| ProducerShutdown.AwaitedDrainLeavesNothing | kafka/confluent.go:905-925 | When Wait returns no report is outstanding, so that the error for such reports is never returned. |
| ProducerShutdown.ShutdownNeverSticks | kafka/confluent.go:936-970 | Until the shutdown is over some step of the producer or a driver can be taken. |
| ProducerFields.Producer.EnqueueRecords | kafka/confluent.go:1047-1127 | The enqueue loop accepts exactly the records before the first refusal and returns that refusal's error. |
| ProducerFields.Producer.Drain | kafka/confluent.go:1047-1127 | The drainer consumes one event per accepted record, keeps messages in order of arrival and returns the first failure. |
| ProducerFields.Producer.CloseDrivers | kafka/confluent.go:936-970 | The closing loop closes each collected driver once and forgets them. |
| CloneLaws.Clone | config/schema.go:508-638 | For every finite graph the clone ends; it fails exactly when an unsupported value is reachable; otherwise the original is untouched and the result is an isomorphic copy on new nodes. |
| CloneLaws.CloneLooksTheSame | config/schema.go:531-638 | To any depth, what can be seen from the clone is what can be seen from the original. |
| CloneLaws.CloneIsSeparate | config/schema.go:531-638 | Everything the clone leads to is new: no memory is shared with the original. |
| CloneLaws.SharingIsKept | config/schema.go:531-638 | Two reachable references lead to one new node exactly when they were the same pointer, map or slice. |
| CloneLaws.OverlapIsTakenApart | config/schema.go:531-638 | Two slices that share an element of one array share none after the clone. |
| GraphClone.Cloner.CloneValue | config/schema.go:531-638 | The recursion with its visited map: a value is replaced by its image, and everything entered is completed. |
| DynamicEncoding.RoundTrip | grpc/dynamic_codec.go:22-223 | For every schema and every message of a type that reaches no clash, encoding what was decoded gives the message back, in whatever order maps are ranged over. |
| DynamicEncoding.SpoiledRoundTrip | grpc/dynamic_codec.go:153-180 | A message that a discriminator spoils does not come back when the keys of oneofs are ranged over last. |
| DynamicFields.ClashFreeIff | grpc/dynamic_codec.go:153-180 | A message type has no spoiled message if and only if neither it nor a type it reaches has a settable oneof named like a field's JSON name. |
| DynamicEncoding.ClashBreaksRoundTrip | grpc/dynamic_codec.go:158-170 | A schema and a message whose map is refused. |
| DynamicEncoding.Populate | grpc/dynamic_codec.go:153-223 | Any object: an accepted one gives a message that fits and is what its keys, in some order, make of a fresh one, each key that names a field setting it to what its value stands for; only an object with such a key is refused. |
| DynamicSources.UnknownAndNullChangeNothing | grpc/dynamic_codec.go:158-173 | The messages an object may become are exactly those of the object without its nulls and its unknown keys. |
| DynamicSources.IntegersAreExact | grpc/dynamic_codec.go:315-337 | A singular integer field that some key gives holds exactly the integer one of these keys denotes, or is cleared by another member of its oneof; if no key gives it, it is fresh. |
| DynamicSources.EveryGivenIsTaken | grpc/dynamic_codec.go:173-175 | In an accepted object every key that names a field holds something the field can take. |
| DynamicEncoding.EncodeInt | grpc/dynamic_codec.go:386-489 | No accepted integer is truncated: it is the one that was denoted, and within the range of the field. |
| DynamicEncoding.EncodeEnum | grpc/dynamic_codec.go:302-317 | An enum comes back from its name, or from its number as text when it has none; what is accepted fits 32 bits. |
| DynamicCodec.DecodeMessage | grpc/dynamic_codec.go:37-77 | The map has exactly the fields that are set or have no presence, null for an unset message field, and a discriminator for each oneof that is set. |
| DynamicCodec.KeyTextInjective | grpc/dynamic_codec.go:129-142 | Distinct keys of one kind have distinct texts, so that no map entry is overwritten. |
| Decimals.FormatInjective | grpc/dynamic_codec.go:117-120 | Distinct integers have distinct texts. |
| SseScanner.ScanStream | feature/sse.go:77-122 | However the stream is cut into reads: after each read exactly the lines completed so far were handed out, and at the end all lines of the stream. |
| SseScanner.Scanner.Split | feature/sse.go:77-122 | One call of the split function hands out the next line, or nothing if none is complete, with LF, CR and CRLF ends and one byte order mark. |
| SseEvents.ParsePrinted | feature/sse.go:29-72 | Printing an event and parsing it gives the event back exactly if it is within the bound. |
| SseEvents.StreamRoundTrip | feature/flags.go:875-921 | Printed events come back from the stream in whatever reads it arrives. |
| SseEvents.ParseIsBounded | feature/sse.go:40-64 | Accumulated data never exceeds 16 MiB, whatever the stream holds. |
| SseEvents.ReadStream | feature/flags.go:875-921 | Scanner and loop together dispatch what the lines of the stream mean. |
| FeatureRevisions.AcceptedIsCurrent | feature/flags.go:1317-1407 | In every interleaving an accepted event's request carried the attributes current at acceptance, up to keys without values if the defaults have such. |
| FeatureRevisions.AlwaysExactIff | feature/flags.go:593-626 | They are the same map in every run if and only if no default key is without values. |
| FeatureRevisions.ReadyIsCurrent | feature/flags.go:1317-1365 | All stored values share one revision; while ready it is the current one and a full set was accepted for it. |
| FeatureRevisions.WaitReadyMeansFullSet | feature/flags.go:276-308 | WaitReady succeeds only after a full set was accepted for a revision at least the one current at its call. |
| FeatureRevisions.MapsEqualIff | feature/flags.go:1481-1491 | Exactly when the comparison takes different attribute maps for equal. |
| FeatureRevisions.EmptyListPassesForMissing | feature/flags.go:1481-1491 | Two different maps of one key that the comparison takes for equal. |
| FeatureRevisions.ClearContextRestoresDefaults | feature/flags.go:691-708 | Clearing the context always ends with the defaults. |
| FeatureRevisions.FullSetMeans | feature/flags.go:1330-1365 | A full set leaves exactly its own keys, and in a new context its own values. |
| FeatureClient.Client.ApplyFullFeatureSet | feature/flags.go:1330-1365 | The fields follow the step: another revision's event changes nothing, otherwise merge, drop and publish. |
| FeatureClient.EvaluationContext.EndBuild | feature/context.go:122-172 | A Build succeeds exactly if no setter came between, and then its features were requested for the present attributes. |
| StaleRetention.RetentionIsBounded | feature/flags.go:1275-1311 | In every timed run a snapshot is ready for at most the window, and 30 s, after the first stale notice since the last accepted event. |
| StaleRetention.OldTimersAreHarmless | feature/flags.go:1275-1311 | A timer armed before an accepted full set never clears the readiness that set published. |
| LruCache.Cache.Set | encryption/encryption.go:358-387 | List, map and size stand for one recency sequence; Set puts the entry first and keeps the longest prefix within both limits. |
| LruCache.Cache.Get | encryption/encryption.go:345-356 | A hit returns the stored value and moves its entry to the front; a miss changes nothing. |
| LruCache.TrimIsLongestPrefix | encryption/encryption.go:358-430 | Eviction leaves the longest prefix within both limits, possibly empty. |
| LruCache.StoredContents | encryption/encryption.go:358-387 | What a Set leaves, key by key; an entry too large for the cache leaves nothing. |
| EncryptionCaches.CachesAreTransparent | encryption/encryption.go:191-303 | In every reachable state of both caches Decrypt answers as without a cache, and every text Encrypt returns opens to its message. |
| EncryptionCaches.RoundTrip | encryption/encryption.go:191-303 | Decrypt gives back what Encrypt was given, with any calls in between. |
| EncryptionCaches.EncryptSealsIff | encryption/encryption.go:191-303 | In every reachable state Encrypt answers with the freshly sealed text, if and only if no other text that opens to the message fits the cache on its own. |
| EncryptionCaches.EncryptReturnsTheDecryptedText | encryption/encryption.go:296-303 | Any text that opens and fits, once decrypted, becomes the answer of Encrypt for its message. |
| EncryptionCaches.Manager.Decrypt | encryption/encryption.go:243-303 | The method on the two linked-list caches does what the step says. |
| Migrations.Runner.Run | migration/migration.go:510-574 | At every moment of a Run effects and durable state differ by what an earlier call left and the migration being executed at most; what each outcome means; what a failed call leaves is still pending. |
| Migrations.Runner.Revert | migration/migration.go:577-651 | The same for Revert; nothing is touched if a Down is missing. |
| Migrations.Runner.RevertOne | migration/migration.go:598-651 | The same for the latest marked migration; once its checkpoint is stored nothing is left out of step. |
| MigrationLaws.RunTwice | migration/migration.go:510-574 | Every moment of the call agrees but for the executing migration and validates; repeated after a failure without a further one, the call ends in agreement. |
| MigrationLaws.RevertTwice | migration/migration.go:577-651 | The same for Revert. |
| MigrationLaws.RevertOneTwice | migration/migration.go:598-651 | The same for RevertOne; and a repeated call that succeeds leaves the state with one migration reverted, except exactly when the first failed with its checkpoint stored and another one was left to revert: then two are. |
| MigrationLaws.RevertOneGoesFurther | migration/migration.go:598-651 | A run in which the repeated call reverts a second migration. |
| MigrationLaws.EveryCheckpointValidates | migration/migration.go:790-840 | Every state a Run stores validates if nothing stale is recorded up to the end of its range. |
| MigrationLaws.RunResultValidatesIff | migration/migration.go:812-840 | The state a Run leaves validates if and only if nothing stale is recorded. |
| MigrationLaws.StaleChecksumSpoilsRun | migration/migration.go:812-840 | A valid state that a Run spoils. |
| MigrationLaws.RevertKeepsValid | migration/migration.go:616-651 | Every state a Revert stores validates. |
| MigrationLaws.SuppressedOnlyAfterRange | migration/migration.go:510-574 | No stored state shows an earlier migration suppressed before the whole range is applied. |
| MigrationLaws.RunResultMeans | migration/migration.go:510-574 | After a Run exactly the old and the range's migrations are in force, and everything up to its end is marked. |
| MigrationLaws.LatestIsLatest | migration/migration.go:653-661 | The recorded last run is the latest migration still applied. |
| MigrationIds.BeforeIsTotal | migration/migration.go:110-133 | The order of IDs is a strict total order. |
| MigrationIds.ResolveTarget | migration/migration.go:874-897 | A target resolves to the first or last migration of its version or to the one it names, and fails if there is none. |
| MigrationIds.RangeIsTheVersionsBetween | migration/migration.go:856-872 | A range between two versions holds exactly the migrations of the versions between them. |
| DefaultOwners.MetricsDefaultIsNewest | metrics/metrics.go:222-256 | After any installs and restores, in any order and repeated, the default is the newest active owner's registry, or else the baseline. |
| DefaultOwners.SlogDefaultIsNewest | logging/sloghandler.go:70-127 | The same for the default logger when nobody else replaces it. |
| DefaultOwners.SlogDefault.Restore | logging/sloghandler.go:95-127 | A restore never replaces a default logger that is not its owner's own. |
| TokenBuckets.BucketIsBounded | logging/ratelimit.go:64-81 | Between any two calls of a run at most the maximum plus rate times the time between them were allowed. |
| TokenBuckets.SharedBuckets | logging/ratelimit.go:142-158 | For any handlers derived from each other in any order, each bucket is charged with exactly the records of its levels, whichever handler they come through, and keeps its bound between any two of all its calls. |

## Left out

- OffsetFinalizer modes, legacy constructors and the compatibility `Init` paths: deliberately different contracts that only add cases.
- FranzConsumer: Close is not a step, so runs are those until Close; the consumer's run loop and goroutines are the order of events.
- ConfluentConsumer: an `Assignment()` call of the driver that fails in `rewindPositionsStillOwned`, which gives up filtering, and messages with a nil topic.
- Real drivers, the broker, TLS, SASL, metrics, tracing and log output: events and parameters, or I/O plumbing.
- ProducerShutdown: metadata caching, partition choice and message building; a driver may take any time to answer, so that timeouts are events.
- DynamicCodec: the JSON well-known types, extensions, unknown fields, and typed Go slices and maps as input, which reflection also accepts.
- GraphClone: unexported fields, custom cloners and interior pointers of the reflection layer; keys that are not equal to themselves; pointers to zero-size values.
- SseScanner: buffer growth and lines over the buffer limit; retries and HTTP of the stream.
- FeatureClient: client-evaluated keys, strategy evaluation, blank attribute keys, and the legacy client.
- EncryptionCaches: AES-GCM, base64 and key loading, which are an abstract codec.
- Migrations: locks, leases and fencing tokens; decoding, normalising and encoding the stored state; ID parsing, of which only the order and the resolution of targets are kept.
- DefaultOwners: the standard log writer and flags that the slog restore puts back.
- TokenBuckets: floating-point rounding, for real numbers are used; the decision callback.
- FeatureRevisions.AcceptedIsCurrent: equal up to keys without values only, because with such defaults equality fails; FeatureRevisions.AlwaysExactIff says exactly when.
- DynamicEncoding.RoundTrip: requires a message type that reaches no clash, because others have a message that fails; DynamicFields.ClashFreeIff says which.
