# kubeadapt-agent: a verified model

kubeadapt-agent watches a Kubernetes cluster, assembles a snapshot on every tick and sends it to
a backend. This project models the parts of it whose correctness depends on more than one
function, and proves what they keep over every input and every run:

- the parser of dcgm-exporter's Prometheus text and the fold of its samples into GPU records
  (`Text`, `LabelSchema`, `LabelFields`, `Exposition`, `ExpositionLimits`, `MalformedLines`,
  `DeviceFold`, `DeviceReadings`);
- the snapshot pipeline: hash joins of usage and GPU metrics, the backfill of nodes that
  concurrent store reads missed, the bounded owner walk, the per-workload totals and the cluster
  summary, composed in the order `Build` runs them (`Model`, `Index`, `UsageMerge`, `GpuMerge`,
  `GpuFigures`, `Store`, `Backfill`, `Ownership`, `OwnerBound`, `OwnerChains`, `Aggregation`,
  `Conservation`, `WorkloadFigures`, `SummaryTotals`, `SummaryFigures`, `GpuConservation`,
  `MetricsPolls`, `SharedContainers`, `Build`, `BuildFigures`);
- the agent's loop and state machine as a transition system over ticks, backend statuses and
  cancellation (`StateMachine`, `AgentLoop`, `AgentCounters`);
- the retry loop of the transport client with its int64 sleeps, the classification that travels
  through error text, and the lazily pruned error collector (`Responses`, `Client`, `Errors`);
- two schedulers: informer crash recovery with its stop and done channels, and the phase barrier
  of the end-to-end cluster (`Informer`, `Phases`).

Code that changes things in place is a method or a class here: each method is proved against a
specification function, and what the code promises is proved about that function. Go maps yield
their keys in any order, so every loop over a map picks its next key freely and its result is
stated for all orders. The results of the pipeline are stated twice: as functions that the methods
compute, and, in the modules named after fields, figures, readings, chains and counters, by the
raw fields and the literal names of what was read. `float64` is `real`, `int64` is `int` (except for the sleeps, where
wrap-around is the point), absent pointers are `None`, strings are sequences of code points, and
times are integer nanoseconds. Clock readings, `strconv.ParseFloat`, the outcome of each post,
cancellation and the results of the encoder are parameters.

`dafny verify dfyconfig.toml` checks the whole project.

## What the proofs found

- **Label order matters in exactly two cases.** With distinct label names, `parseLabels` gives the
  same record for every order of the labels if and only if no new-style label is empty beside a
  non-empty old-style one for the same attribute and no two spellings of UUID disagree
  (`LabelSchema.OrderFreeIff`). Otherwise two labels can be swapped to change the record
  (`LabelSchema.ConflictExamples`).
- **"Only if > 0" loses memory exactly when a node's sum is negative**, which the sentinel test
  does not exclude (`GpuConservation.MemoryConservedIff`, `GpuConservation.NegativeMemoryLost`,
  `Build.BuiltGpuMemoryIff`). With non-negative device memory the cluster totals are exact
  (`Build.BuiltGpuMemory`).
- **Ten hops are enough for nine ReplicaSets and no more.** The walk reaches the top if and only
  if the chain ends with at most ten links (`Ownership.ResolvesIff`); every snapshot without a
  ReplicaSet cycle and with at most n ReplicaSet names resolves if and only if n is at most nine
  (`OwnerBound.ResolvesWithinIff`).
- **Usage outlives its source, in two ways.** The metrics store is only ever set, never pruned, so
  a pod that metrics-server no longer lists keeps its last entry, and so does any pod that later
  takes its name (`SharedContainers.VanishedPodIff`). The joins also write into the container
  slices of the stored pods, so a container that the pod's current entry omits keeps reporting
  the latest usage an earlier build saw, until the informer replaces the pod
  (`SharedContainers.StaleUsageIff`). The GPU list is replaced on each poll, so there any gap
  shows (`SharedContainers.StaleGpuIff`).
- **Jobs of CronJobs always fall back.** The fallback to a Job's template is meant for Jobs whose
  pods have vanished; the pods of a CronJob's Job count for the CronJob, so such a Job never has
  any (`Build.CronJobsJobFallsBack`).
- **Blanks between tokens are not skipped.** The text format allows them; the parser reads back a
  label block exactly when the only blanks are behind the last value
  (`ExpositionLimits.PaddedRoundTripIff`), and drops the value of a known label written with
  blanks (`ExpositionLimits.PaddedNameUnknown`).
- **Every sleep fits int64 nanoseconds if and only if MaxRetries is at most 34**, and then, and
  only then, the total sleep is 2^a - 1 seconds at every attempt index (`Client.AllSleepsFitIff`,
  `Client.TotalSleepIff`). `Config.Validate` sets no upper bound.
- **Exactly one of result and error holds if and only if MaxRetries is not negative**, which
  `Config.Validate` guarantees (`Client.ExactlyOneResultIff`).
- **The backend's statuses never reach the state machine.** `HandleHTTPStatus` has one caller
  outside tests, which passes 200 after a successful send. Run without any other status source,
  the agent stays in Running and sends on every tick, whatever the backend answers
  (`AgentLoop.AloneAlwaysSends`). The gating theorems therefore hold for any status source.
- **Joined keys are ambiguous exactly for pairs that collide** (`Prelude.JoinedEqualIff`), which
  takes the separator in a code and in a component, or in a namespace and in a name. A reading
  misses exactly the active pairs that a later colliding report hides (`Errors.ReadingIsHistory`),
  a lookup exactly the items that a later colliding one hides (`Index.JoinedScanIff`). With the
  declared codes nothing is missed (`Errors.KnownCodesReturned`), and Kubernetes allows no '/' in
  namespaces or names.

Where the code and its documentation differ, the code is followed: `docs/architecture.md:185`
says that response codes drive the state machine (they do not, see above);
`docs/architecture.md:158-164` describes a streaming transport without a second buffer, but
`Send` encodes the whole snapshot first and posts the same bytes on every attempt;
`docs/architecture.md:147` speaks of a two-hop ownership chain, but the walk makes up to ten hops.

## Model

| member | source | states |
|---|---|---|
| LabelSchema.NormaliseIsDeclared | internal/collector/gpu/parser.go:288-327 | Assigning labels from left to right gives the order-free record (new-style value if the label is present, else old-style, else empty) whenever labels of one kind agree and none conflict |
| LabelSchema.DeclaredPermutation | internal/collector/gpu/parser.go:288-327 | The order-free record, and the absence of conflicts, are the same for every permutation of the labels |
| LabelSchema.SlotByPosition | internal/collector/gpu/parser.go:303-322 | With an empty new-style label and an old-style one for the same attribute, every prefix of the labels has the attribute empty or old-style depending only on which of the two came last |
| LabelSchema.UuidByPosition | internal/collector/gpu/parser.go:293-294 | Of two UUID spellings the later one decides the record's UUID |
| LabelSchema.ConflictBreaksOrder | internal/collector/gpu/parser.go:288-327 | For every conflicting list of distinct labels there is a permutation with a different record |
| LabelSchema.OrderFreeIff | internal/collector/gpu/parser.go:288-327 | With distinct names, the record is the same for all permutations if and only if no two labels conflict, and then it is the order-free record |
| LabelSchema.ConflictExamples | internal/collector/gpu/parser.go:288-327 | pod="" with pod_name="x", and UUID="a" with uuid="b", conflict, and swapping either pair changes the record |
| LabelFields.IdentityFields | internal/collector/gpu/parser.go:288-327 | For any labels, conflicting or not: gpu is the value of the last label named "gpu", uuid that of the last one named "UUID" or "uuid", and empty without one |
| LabelFields.ModelFields | internal/collector/gpu/parser.go:288-327 | The same for "device" and "modelName" |
| LabelFields.HostFields | internal/collector/gpu/parser.go:288-327 | The same for "DCGM_FI_DRIVER_VERSION" and "Hostname" |
| LabelFields.InstanceFields | internal/collector/gpu/parser.go:288-327 | The same for "GPU_I_ID" and "GPU_I_PROFILE" |
| LabelFields.WorkloadFields | internal/collector/gpu/parser.go:288-327 | Pod, namespace and container are the value of the last new-style label if it is not empty, and else the first non-empty old-style value behind it |
| Exposition.ScanValue | internal/collector/gpu/parser.go:250-281 | The index loop over a quoted value returns the decoded value and the text after its closing quote, as the recursive reader does; an unclosed value takes everything |
| Exposition.ParseLabels | internal/collector/gpu/parser.go:233-330 | The re-slicing loop yields the normalised record of the label pairs before the first malformed one |
| Exposition.ParseSampleLine | internal/collector/gpu/parser.go:186-227 | A line yields a sample exactly when it reads as name, optional label block and a value that parses, with the block ending at the last closing brace |
| Exposition.ParseLine | internal/collector/gpu/parser.go:168-178 | Blank and comment lines yield nothing, other lines what they read as |
| Exposition.ParsePrometheusText | internal/collector/gpu/parser.go:163-181 | The samples are those of the scanned lines, in order |
| Exposition.SamplesByReading | internal/collector/gpu/parser.go:186-227 | Each sample has the name and the value of what was read and the normalised record of its labels |
| Exposition.ValueRoundTrip | internal/collector/gpu/parser.go:250-281 | Any label value, with quotes, backslashes, braces, commas or newlines, survives escaping and reading, whatever text follows |
| Exposition.UnknownEscapeKept | internal/collector/gpu/parser.go:262-264 | A backslash before any character but a quote, a backslash and n is kept together with that character |
| Exposition.UnclosedValue | internal/collector/gpu/parser.go:276-281 | Without a closing quote the value is the rest of the text, unescaped, and nothing is left to parse |
| Exposition.PairsRoundTrip | internal/collector/gpu/parser.go:233-330 | Any list of labels whose names have no '=' is read back from its printed form |
| Exposition.ItemRoundTrip | internal/collector/gpu/parser.go:186-227 | Any valid metric line, with or without a label block or a timestamp, is read back as printed |
| Exposition.DocumentPrefix | internal/collector/gpu/parser.go:163-181 | A valid document contributes exactly its samples in front of whatever text follows it |
| Exposition.DocumentRoundTrip | internal/collector/gpu/parser.go:163-181 | Printing any list of valid lines with interleaved blank and comment lines and parsing the text returns exactly the samples, in order |
| Exposition.OverlongLineEndsScan | internal/collector/gpu/parser.go:163-181 | A line of 64 KiB or more silently ends the parse: the samples before it are kept, all later ones are lost |
| MalformedLines.BareLine | internal/collector/gpu/parser.go:186-227 | A line without an open brace reads as its first two words, if it has two and the second is a value |
| MalformedLines.LabelledLine | internal/collector/gpu/parser.go:186-227 | Any other line with a closing brace behind the first open one reads as the name before that brace, the labels up to the last closing brace, and the first word behind it |
| MalformedLines.UnclosedLine | internal/collector/gpu/parser.go:186-227 | An open brace that no closing one follows drops the line |
| MalformedLines.LineForms | internal/collector/gpu/parser.go:186-227 | Every line is of one of these three forms |
| MalformedLines.LabelsStop | internal/collector/gpu/parser.go:233-330 | Labels end where no equals sign follows, or no quote follows it |
| MalformedLines.LabelsGoOn | internal/collector/gpu/parser.go:233-330 | Otherwise the text before the equals sign names a label with the value read from the quote on, and the labels go on behind at most one comma |
| MalformedLines.BytesOfText | internal/collector/gpu/parser.go:163-181 | The bytes that the line limit counts: one for each character and one more at each of the three bounds of UTF-8 |
| ExpositionLimits.ReadUpToFirstLong | internal/collector/gpu/parser.go:163-181 | A document of well-formed lines of any length is read up to its first line of 64 KiB or more |
| ExpositionLimits.ReadBackIff | internal/collector/gpu/parser.go:163-181 | Everything is read back if and only if no metric line stands at or after that line |
| ExpositionLimits.PaddedRoundTripIff | internal/collector/gpu/parser.go:233-330 | Labels with blanks around their tokens, as the format allows, are read back if and only if the only blanks are behind the last value |
| ExpositionLimits.PaddedNameUnknown | internal/collector/gpu/parser.go:290-327 | A name read together with blanks is none of the known ones, so its value is dropped |
| ExpositionLimits.BlankedLineIff | internal/collector/gpu/parser.go:186-227 | A line with a gap before its label block is read back if and only if the gap is empty and the labels have no blanks but behind the last value |
| DeviceFold.UpdateDevice | internal/collector/gpu/parser.go:74-147 | One sample changes only the field of its metric, sentinels change nothing, and a device utilisation is ignored once a profiling one was seen |
| DeviceFold.AddPoint | internal/collector/gpu/parser.go:67-147 | One sample keeps the map equal to the record description of the samples so far |
| DeviceFold.FoldSamples | internal/collector/gpu/parser.go:56-159 | The result lists, in some order, exactly one record per distinct key, and each record is the one described by the key's first labels and last readings |
| DeviceFold.ListCompleted | internal/collector/gpu/parser.go:150-158 | The final pass lists every map entry once, with a missing memory total completed, for any iteration order |
| DeviceReadings.RecordOfKey | internal/collector/gpu/parser.go:56-159 | For every sample list and GPU, each field of the record by the exporter's metric names: present exactly if a sample of the GPU and that name is at most 1e15, with the value of the last such sample, as it is, times 100, in bytes or as a flag; the profiling utilisation wins over the device one, and a missing total is used plus free |
| DeviceReadings.RecordsOfSamples | internal/collector/gpu/parser.go:56-159 | The result holds one such record for every UUID, or index where there is no UUID, that a sample names, with the labels of its first sample |
| DeviceReadings.ParseDCGMMetrics | internal/collector/gpu/parser.go:56-159 | From text to records: the records are those described by the samples of the text, field by field |
| DeviceFold.CollectedStep | internal/collector/gpu/parser.go:62-148 | The order-free description of a record follows the loop: a sample updates its own key's record and leaves the others alone |
| DeviceFold.LastValueMeaning | internal/collector/gpu/parser.go:74-147 | The value used for a metric is the one at the last position holding a non-sentinel reading, and there is one exactly if some position does |
| DeviceFold.OrderIndependent | internal/collector/gpu/parser.go:56-159 | Lists with the same samples, agreeing on labels and readings per key, have the same keys and the same record for each |
| DeviceFold.SameResults | internal/collector/gpu/parser.go:56-159 | Their results hold the same records and equally many, whatever orders the two maps are listed in |
| DeviceFold.ProfilingPreferred | internal/collector/gpu/parser.go:75-90 | One profiling reading anywhere makes the utilisation 100 times the last profiling reading |
| DeviceFold.TotalPreferred | internal/collector/gpu/parser.go:120-155 | The last reported total, wherever it stands, is the record's, whatever used and free say |
| DeviceFold.TotalFromParts | internal/collector/gpu/parser.go:106-155 | Without a reported total there is one exactly if used and free were both read somewhere, and it is the sum of the last readings of each |
| DeviceFold.NegativeReadingKept | internal/collector/gpu/parser.go:354-358 | The sentinel test rejects no negative value: a reading of -1 MiB becomes -1048576 bytes |
| Index.BuildIndex | internal/snapshot/builder.go:245-249 | The lookup table answers every key as a scan for the last item with that key does |
| Index.FindLastMeaning | internal/snapshot/builder.go:226-229 | The scan finds the item at the last position with the key, and nothing exactly if no item has it |
| Prelude.JoinedEqualIff | internal/errors/errors.go:84-86 | Two pairs have the same joined key if and only if they are equal or one first part runs over the separator of the other with the rest matching (they collide) |
| Prelude.CollisionNeedsSeparator | internal/errors/errors.go:84-86 | A collision needs the separator in the first part of one pair and in the second part of the other |
| Index.JoinKeyInjective | internal/enrichment/ownership.go:44-71 | "namespace/name" determines both parts when namespaces have no '/' |
| Index.JoinedScan | internal/enrichment/ownership.go:44-71 | If no item's pair collides with the asked one, looking up the joined key finds the last item with that namespace and name |
| Index.CollisionFound | internal/snapshot/builder.go:245-252 | An item whose pair collides with the asked one is what the lookup finds, and never what the scan finds |
| Index.JoinedScanIff | internal/snapshot/builder.go:245-252 | The finished table answers as the scan does if and only if every item whose pair collides with the asked one is followed by one that has it |
| UsageMerge.MergeNodeMetrics | internal/snapshot/builder.go:222-238 | Every node keeps its place and gets the usage of the last metrics entry of its name, or keeps what it had |
| UsageMerge.MergeContainers | internal/snapshot/builder.go:256-268 | Every container gets the values of the last same-named entry, or keeps what it had |
| UsageMerge.MergePodMetrics | internal/snapshot/builder.go:241-270 | Every pod keeps its place and everything but the usage of its containers, joined by the table lookup |
| UsageMerge.PodJoinIsNaiveScan | internal/snapshot/builder.go:241-270 | Unless a later colliding entry hides the pod's own (impossible without '/' in namespaces), each container gets the last same-named container of the last entry with the pod's namespace and name, and otherwise keeps its values on entry |
| UsageMerge.NodeUsageByName | internal/snapshot/builder.go:222-238 | A node has the CPU and memory usage of the last entry of its name, keeps its own without one, and nothing else of it changes |
| UsageMerge.PodUsageByName | internal/snapshot/builder.go:241-270 | A container has the CPU and memory usage of the last entry of its name in the last pod entry with its "namespace/name", keeps its own without either, and nothing else of the pod changes |
| GpuMerge.SumDevices | internal/snapshot/builder.go:290-363 | One pass over a node's devices yields the sums and counts of the reported values and the per-device records |
| GpuMerge.CountDevice | internal/snapshot/builder.go:316-360 | Each reported value adds to its own sum and count, absent values to none |
| GpuMerge.GroupByHost | internal/snapshot/builder.go:277-282 | The map holds under each host exactly its devices, in order; an empty host name holds none |
| GpuMerge.UpdateNodeGpu | internal/snapshot/builder.go:290-397 | A node's GPU fields become means, sums and the maximum temperature of its devices; absent and non-positive figures keep what was there |
| GpuMerge.MergeGpuNodeMetrics | internal/snapshot/builder.go:272-399 | Every node is updated from exactly the devices whose host name is its name |
| GpuMerge.MaxTemperatureMeaning | internal/snapshot/builder.go:344-351 | The reported maximum is the largest device temperature, or zero if none is above zero |
| GpuMerge.GroupByContainer | internal/snapshot/builder.go:419-439 | The table holds for each namespace, pod and container the sums over exactly its devices |
| GpuMerge.UpdatePodGpu | internal/snapshot/builder.go:441-460 | Each container gets the mean utilisation and the memory sum of its devices, or keeps what it had |
| GpuMerge.MergeGpuContainerMetrics | internal/snapshot/builder.go:401-461 | Every pod keeps its place and everything but those container fields |
| GpuFigures.DevicesByLabel | internal/snapshot/builder.go:419-439 | The devices of a container are, in list order, those whose namespace, pod and container labels name it, with none of the three empty |
| GpuFigures.PodFigures | internal/snapshot/builder.go:441-460 | A container has the mean of the utilisations and the sum of the used memory that devices with its labels report, each if there is one, and nothing else of the pod changes |
| GpuFigures.DevicesByHost | internal/snapshot/builder.go:277-283 | The devices of a node are, in list order, those whose host name is the node's |
| GpuFigures.NodeFigures | internal/snapshot/builder.go:272-399 | Each GPU field of a node by the fields of the devices of its host: model and driver of the first, three means, positive memory sums, power sum, highest temperature, MIG flag and one description per device; without a device the node is unchanged |
| SharedContainers.MergeUsage | internal/snapshot/builder.go:241-270 | On pods that share their container slices with the store, the usage join changes exactly what the join on values says, in the stored pods too |
| SharedContainers.MergeGpu | internal/snapshot/builder.go:401-461 | So does the GPU join |
| SharedContainers.JoinStored | internal/snapshot/builder.go:138-170 | The pod part of one build leaves every stored pod joined with that build's metrics |
| SharedContainers.RunRounds | internal/snapshot/builder.go:72-86 | Rounds of polls, each followed by a build: every build reads the metrics store as the polls left it, the builds' lists only grow, and the joins apply one after another to each stored pod |
| SharedContainers.ReportIsLatest | internal/snapshot/builder.go:261-267 | What a build reports for a container, usage, GPU utilisation and GPU memory alike, is the report of the latest build so far that had one |
| SharedContainers.LatestUtilization | internal/snapshot/builder.go:401-461 | By device labels: the mean utilisation of the last build whose device list reports one for the container's namespace, pod and name, or its own if none did |
| SharedContainers.LatestMemory | internal/snapshot/builder.go:401-461 | The same for the used GPU memory |
| SharedContainers.ReadsGrow | internal/collector/metrics/server.go:161-190 | A pod that one build reads an entry for has one in every later build |
| SharedContainers.StaleUsageIff | internal/snapshot/builder.go:250-269 | Over growing lists, a build reports other usage for a container than it would alone if and only if its own entry for the pod omits the container and an earlier build changed the usage |
| SharedContainers.StaleGpuIff | internal/snapshot/builder.go:452-457 | A GPU figure differs from what the build would report alone if and only if none of the build's devices reports it for the container and an earlier build changed it |
| SharedContainers.OmittedContainerExample | internal/snapshot/builder.go:250-269 | Two polls, the second listing the pod without the container, and a build after each: the second build repeats the first one's usage |
| SharedContainers.VanishedPodIff | internal/collector/metrics/server.go:161-190 | For any pod, a replacement included, a build reports what the latest poll says if and only if that poll lists the pod, or no earlier poll had other usage for the container |
| SharedContainers.VanishedPodExample | internal/collector/metrics/server.go:161-190 | A new pod of the name of one that metrics-server stopped listing gets its predecessor's usage |
| MetricsPolls.PollPodMetrics | internal/collector/metrics/server.go:161-190 | A successful poll sets an entry for each listed pod, the last one winning, and removes none; a failed poll changes nothing |
| MetricsPolls.GpuPoller.Poll | internal/collector/gpu/collector.go:104-137 | A successful poll replaces the whole list, a failed one keeps it |
| MetricsPolls.StoreHoldsLatest | internal/collector/metrics/server.go:161-190 | After any polls the store holds, for each pod, the entry of the latest poll that listed it, and its keys are those of its entries |
| MetricsPolls.ReadingIsLatest | internal/snapshot/builder.go:74 | So does every reading of it, in whatever order |
| MetricsPolls.ListedOnce | internal/collector/metrics/server.go:161-190 | A pod listed once is held after any further polls |
| Store.TypedStore.Set | internal/store/typed.go:28-33 | The key maps to the value, all other keys are unchanged, and the time is recorded |
| Store.TypedStore.Delete | internal/store/typed.go:36-41 | The key is gone, all other keys are unchanged, and the time is recorded even if it was absent |
| Store.TypedStore.Values | internal/store/typed.go:78-86 | The value of every key exactly once, in some order of the keys |
| Store.TypedStore.Clear | internal/store/typed.go:89-93 | Everything is gone and the recorded time is kept |
| Store.HandleNodeEvent | internal/collector/resource/nodes.go:52-88 | Adds and updates store a node under its name, deletes and tombstones remove it, both record the time and set the gauge to the number of stored nodes; other objects change nothing |
| Store.HistoryKeyed | internal/collector/resource/nodes.go:52-88 | After any run of node events every key of the store is its node's name |
| Store.HistoryContents | internal/collector/resource/nodes.go:52-88 | After any run of events a name is stored exactly if a delete of it, plain or by tombstone, does not follow its last add or update, and with that event's node |
| Store.KeyedValuesDistinct | internal/store/typed.go:78-86 | Reading such a store yields nodes with pairwise distinct names, exactly the keys |
| Backfill.PresentNames | internal/snapshot/builder.go:179-182 | The set of the snapshot's node names |
| Backfill.ReferencedNames | internal/snapshot/builder.go:183-192 | The distinct non-empty node names of pods that the snapshot lacks |
| Backfill.IndexByName | internal/snapshot/builder.go:196-200 | The second read indexed by name |
| Backfill.AppendFound | internal/snapshot/builder.go:201-209 | In any iteration order, the missing names split into appended nodes, one each, and orphans, one each |
| Backfill.BackfillReferencedNodes | internal/snapshot/builder.go:175-219 | The original nodes stay a prefix, one node of the second read follows for each missing name found there, and the orphans are the missing names not found |
| Backfill.BackfillUnderRaces | internal/snapshot/builder.go:138-219 | For every interleaving of node and pod events with the three store reads: each pod's node is in the snapshot or absent from the second read, an orphan was absent from both, names stay distinct, each appended node is the second read's of a name that a pod refers to and the snapshot lacked, and the orphan count is the number of distinct unresolved names |
| Backfill.BackfillBetweenReads | internal/snapshot/builder.go:138-219 | The same for any two contents of the node store keyed by name |
| Ownership.ResolveOwner | internal/enrichment/ownership.go:75-146 | The bounded loop makes at most ten hops up the chain, stops where there is none, and changes only the owner fields |
| Ownership.Enrich | internal/enrichment/ownership.go:31-71 | Every pod keeps its place and gets its resolved owner, by the three tables built from the lists |
| OwnerChains.HopIsLink | internal/enrichment/ownership.go:94-132 | One hop is one link of the lists: from a ReplicaSet to its owner with kind, name and UID, from a Job to its CronJob with the CronJob's UID, or the Job's own UID if no CronJob is listed |
| OwnerChains.ResolvedByLists | internal/enrichment/ownership.go:75-146 | A pod gets the owner, with its UID, at the end of the one climb of at most ten such links from its own owner, and nothing else of it changes |
| Ownership.WalkCompose | internal/enrichment/ownership.go:93-132 | m hops followed by n hops are m + n hops, on cyclic graphs too |
| Ownership.WalkStopsAtEnd | internal/enrichment/ownership.go:93-132 | Once the end of the chain is reached further hops change nothing |
| Ownership.WalkHops | internal/enrichment/ownership.go:93-132 | A walk that has not ended after n hops has one more hop to make, and makes it |
| Ownership.RepeatedPasses | internal/enrichment/ownership.go:31-41 | n passes of the enricher equal at most 10n hops and touch only the owner fields |
| Ownership.AcyclicWalkEnds | internal/enrichment/ownership.go:75-146 | By pigeonhole: without a ReplicaSet cycle, a walk longer than the number of ReplicaSets it can meet ends at a terminal owner |
| Ownership.ResolvesToTerminalOwner | internal/enrichment/ownership.go:75-146 | With no ReplicaSet cycle and at most nine ReplicaSets in the pod's namespace, the result is the terminal owner of the unbounded chain and the enricher is idempotent |
| Ownership.ResolvesIff | internal/enrichment/ownership.go:75-146 | The result is the terminal owner if and only if the pod's ownership chain ends with at most ten links; a longer chain gives its eleventh owner |
| Ownership.WalkAlongChain | internal/enrichment/ownership.go:93-132 | A walk of n hops is at the n-th owner of the chain, or at its last |
| OwnerBound.ChainInScope | internal/enrichment/ownership.go:10-11 | A chain of ten ReplicaSets below a Job of a CronJob is a snapshot's: its tables are the indexes of lists, it has no ReplicaSet cycle and ten ReplicaSet names |
| OwnerBound.TenReplicaSetsAreCut | internal/enrichment/ownership.go:10-11 | In that snapshot the pod at the bottom resolves to the Job, which is not terminal |
| OwnerBound.ResolvesWithinIff | internal/enrichment/ownership.go:75-146 | Every pod of every snapshot without a ReplicaSet cycle and with at most n ReplicaSet names in its namespace resolves to its terminal owner, if and only if n is at most nine |
| Aggregation.SumPodResources | internal/enrichment/aggregation.go:121-153 | Requests, limits and usage are the sums over all containers; usage is present exactly when some container reports some |
| Aggregation.SumContainerSpecRequests | internal/enrichment/aggregation.go:106-112 | The sums over the template's containers |
| Aggregation.GroupPods | internal/enrichment/aggregation.go:28-43 | The map holds under each namespace, kind and name exactly its owned pods in order, without finished pods of long-running kinds |
| Aggregation.AggregateKind | internal/enrichment/aggregation.go:46-85 | Every workload of the kind keeps its identity and gets the totals of its owned pods |
| Aggregation.AggregateJobList | internal/enrichment/aggregation.go:89-101 | Every Job gets the totals of its pods, or its template's when those request nothing |
| Aggregation.Enrich | internal/enrichment/aggregation.go:22-104 | All four kinds are aggregated from the same pods, which stay unchanged |
| WorkloadFigures.WorkloadTotals | internal/enrichment/aggregation.go:22-85 | Requests, limits and usage of a workload are the sums over the containers of the pods it owns and that have not finished; usage is present exactly if one of them has any |
| WorkloadFigures.JobTotals | internal/enrichment/aggregation.go:87-101 | The same for a Job, finished pods included, but with its template's requests exactly if those sums are zero and the template has containers |
| Conservation.KindConserved | internal/enrichment/aggregation.go:46-85 | With distinct workloads, what one kind reports is what the pods grouped under its workloads request |
| Conservation.JobsConserved | internal/enrichment/aggregation.go:89-101 | The Jobs that do not fall back report what the pods grouped under all Jobs request |
| Conservation.WorkloadConservation | internal/enrichment/aggregation.go:22-153 | Deployments, StatefulSets, DaemonSets, non-fallback Jobs and the explicit leftover together equal the requests of all containers of all pods |
| WorkloadFigures.LimitConservation | internal/enrichment/aggregation.go:22-153 | With distinct names per kind, the limits reported by Deployments, StatefulSets and DaemonSets and those of the containers they do not own are the limits of all containers |
| Conservation.LongRunningAtMostRequested | internal/enrichment/aggregation.go:22-153 | With non-negative requests the three long-running kinds never report more than the pods request |
| SummaryTotals.CountNode | internal/snapshot/summary.go:58-73 | One node adds its capacities and its reported usage to the totals |
| SummaryTotals.CountNodeGpu | internal/snapshot/summary.go:76-98 | One node adds its GPU figures, each with its own count |
| SummaryTotals.SumNodes | internal/snapshot/summary.go:58-98 | The node loop yields sums and counts over all nodes |
| SummaryTotals.CountPhases | internal/snapshot/summary.go:25-38 | The numbers of running, pending, failed and succeeded pods and of containers |
| SummaryTotals.SumRequests | internal/snapshot/summary.go:121-128 | The requests of all containers of all pods |
| SummaryTotals.ComputeSummary | internal/snapshot/summary.go:6-139 | The summary is the counts, sums and means over the whole snapshot; a mean is present exactly when something reports it |
| SummaryFigures.SummaryByFields | internal/snapshot/summary.go:6-139 | Every figure of the summary by the fields it is made of: phase and container counts, requests over all containers, capacities, usage and GPU means over the nodes that report them, memory exactly if a node has a utilisation |
| GpuConservation.PositiveSumConserved | internal/snapshot/builder.go:386-391 | Keeping only positive node sums never loses memory overall, and is exact if and only if no node's sum is negative |
| GpuConservation.MemoryConservedIff | internal/snapshot/summary.go:76-110 | The cluster's used and total memory equal the memory of the devices hosted on nodes known before backfill, if and only if no node's device sum is negative |
| GpuConservation.NegativeMemoryLost | internal/snapshot/summary.go:89-110 | One node with one device that reports a utilisation and was read as -1 MiB: the summary reports 0 bytes, the hosted devices sum to -1048576 |
| GpuConservation.MeanWithin | internal/snapshot/summary.go:100-118 | A mean lies within any bounds shared by the values it is built from |
| GpuConservation.MeanOfMeansWithin | internal/snapshot/builder.go:307-385 | The mean of node means exists exactly if a hosted device contributes and lies within any bounds the contributing devices share |
| GpuConservation.ClusterMeansWithin | internal/snapshot/summary.go:76-118 | So do the cluster's usage, tensor activity and memory utilisation, for any numbers of nodes and devices |
| GpuConservation.GpuMemoryConservation | internal/snapshot/summary.go:76-110 | With non-negative device memory the summary reports memory exactly if a hosted device reports utilisation, and then reports all of it |
| Build.MergeMetrics | internal/snapshot/builder.go:76-85 | Usage then GPU joins, on nodes and pods |
| Build.JoinAndBackfill | internal/snapshot/builder.go:76-89 | The joined pods and the joined, backfilled nodes, whatever the store holds at the second read |
| Build.ResolveAndAggregate | internal/snapshot/builder.go:91-104 | Owners resolved first, totals from the resolved pods, the summary from both |
| Build.BuildSnapshot | internal/snapshot/builder.go:64-104 | The whole pipeline in its order: pods, nodes, totals and summary of one build in terms of what was read |
| BuildFigures.BuiltByFields | internal/snapshot/builder.go:64-104 | The whole built snapshot by the fields of what was read: every pod with its usage, GPU figures and top owner, every node read, every workload and Job by the containers it owns, and every figure of the summary |
| Build.BuiltRequestsConserved | internal/snapshot/builder.go:64-104 | End to end, all workload totals plus the leftover equal the requests of the pods as read from the store |
| Build.BuiltSummaryBounds | internal/snapshot/builder.go:64-104 | End to end, the summary's requested CPU and memory are those of the pods as read, and bound what the long-running kinds report |
| Build.BuiltGpuMemory | internal/snapshot/builder.go:64-104 | End to end, reported GPU memory is the memory of the devices hosted on nodes of the first read, despite joins and backfill |
| Build.BuiltGpuMemoryIff | internal/snapshot/builder.go:64-104 | Whatever the signs of the readings, a reported total is the memory of the devices hosted on nodes of the first read if and only if no such node has a negative sum |
| Build.BuiltNodesUnderRaces | internal/snapshot/builder.go:64-219 | End to end, for every interleaving of events with the three store reads: each built pod's node is in the built snapshot or gone from the store at the last read, names are distinct, and the orphan count is the number of distinct unresolved names of the built snapshot |
| Build.BuiltGpuMeans | internal/snapshot/builder.go:64-104 | End to end, each GPU mean is present exactly if a device on a node of the first read contributes, and stays within the contributing values' bounds |
| Build.CronJobsJobFallsBack | internal/enrichment/aggregation.go:87-101 | A Job of a CronJob never gets a pod, live or not, in a namespace that resolves fully: its pods count for the CronJob, so it reports its template's requests and no usage |
| StateMachine.StateMachine.constructor | internal/agent/state.go:36-41 | A new machine is starting, without reason, deadline or cancel function |
| StateMachine.StateMachine.SetCancelFunc | internal/agent/state.go:58-62 | Only the cancel function is set |
| StateMachine.StateMachine.TransitionTo | internal/agent/state.go:65-70 | Only state and reason change |
| StateMachine.StateMachine.HandleHTTPStatus | internal/agent/state.go:74-112 | The whole new state for every status code: state and reason by code, a deadline of the retry-after or of 300 s for a 402 and 30 s for a 429, one cancel call for a 410, only the reason for a 5xx, nothing for others |
| StateMachine.StateMachine.IsBackoffExpired | internal/agent/state.go:115-119 | True exactly strictly after the deadline |
| StateMachine.StateMachine.BackoffRemaining | internal/agent/state.go:122-130 | The time to the deadline, never negative |
| AgentLoop.AgentRunner.constructor | internal/agent/agent.go:46-66 | A new agent has counted and reported nothing |
| AgentLoop.AgentRunner.FillHealth | internal/agent/agent.go:243-255 | The report carries the completed totals and what changed since the previous report |
| AgentLoop.AgentRunner.ReceiveInFlight | internal/agent/state.go:74-112 | Statuses arriving during a send are handled in order |
| AgentLoop.AgentRunner.Snapshot | internal/agent/agent.go:202-231 | Report, send, count, and apply 200 only after success and only if the machine has not stopped meanwhile |
| AgentLoop.AgentRunner.HandleTick | internal/agent/agent.go:157-179 | One tick sends, skips or ends the loop by the state it observes, and ends it if the machine stopped during the send |
| AgentLoop.AgentRunner.Run | internal/agent/agent.go:86-181 | The loop's result for every sequence of ticks, statuses and cancellation, starting with an unconditional first snapshot |
| AgentLoop.ExitIsFinal | internal/agent/agent.go:150-180 | After the loop returns no input changes anything |
| AgentLoop.CancelEndsRun | internal/agent/agent.go:150-156 | Cancellation ends the run at once, after whatever inputs it comes: nothing is sent, counted or changed after it |
| AgentLoop.SendGating | internal/agent/agent.go:147-180 | In every run, each send after the first was decided in Running, or in Backoff strictly past the deadline |
| AgentLoop.BackoffDelaysNextSend | internal/agent/agent.go:157-168 | In Backoff, whatever statuses but 200, 402 and 429 arrive, the next send comes strictly after the deadline |
| AgentLoop.DeadlineRespected | internal/agent/agent.go:147-180 | A 402 or 429 between ticks delays the next send past its own retry-after, or its code's default, unless a later 200, 402 or 429 overrides it |
| AgentLoop.DeadlineRespectedInFlight | internal/agent/agent.go:202-240 | So does one that arrives during a send that then fails |
| AgentLoop.VoidBackoffSends | internal/agent/agent.go:150-231 | A backoff that arrives during a send which then succeeds is void: the next tick sends, before its deadline or after, unless a 402, 429 or stopping status comes in between |
| AgentLoop.SkippedUpToDeadline | internal/agent/agent.go:157-168 | In Backoff a tick is skipped exactly up to and including the deadline; there, and only there, a tick is skipped although nothing remains |
| AgentLoop.StopInFlightEndsRun | internal/agent/agent.go:150-231 | A 401, 403 or 410 during a tick's send, followed in flight by no 200, 402 or 429, ends the run with that send, however it ends and whatever comes later |
| AgentLoop.FirstSnapshotDoesNotRevive | internal/agent/agent.go:147-231 | The same guard on the unconditional first snapshot: a machine stopped during it sends nothing else and the first tick ends the loop |
| AgentLoop.StoppedSendsNothing | internal/agent/agent.go:157-179 | Once stopped or exiting, under all statuses but 200, 402 and 429, no run sends again, and the first tick ends the loop |
| AgentLoop.AloneAlwaysSends | internal/agent/agent.go:226-231 | With no status source but the loop's own 200, the agent stays running and sends on every tick, whether sends succeed or fail |
| AgentLoop.CounterTelescoping | internal/agent/agent.go:202-255 | Whichever way the sends end (AgentCounters.CountersFollowSends says which counts where), the i-th report counts i = sent + failed, the deltas up to it add up to its totals, and every report after the first accounts for exactly one send |
| AgentCounters.CountersFollowSends | internal/agent/agent.go:202-255 | In every run the i-th report is made while running and says how many of the first i sends succeeded and how many failed, its deltas are the outcome of the send before it, and the final totals count all sends |
| AgentCounters.ReasonsReported | internal/agent/agent.go:136-168 | In every run the first report gives the completed start as its reason, and one made after a lifted backoff gives that |
| AgentCounters.AloneCountsTicks | internal/agent/agent.go:202-240 | With no status source but the loop's own 200, sent grows by the number of ticks whose send succeeds and failed by the number of the others |
| Errors.ErrorCollector.constructor | internal/errors/errors.go:76-81 | A new collector has no entries and no history |
| Errors.ErrorCollector.Report | internal/errors/errors.go:89-98 | The pair's entry becomes the error at this time; the map stays the one of the history |
| Errors.ErrorCollector.Prune | internal/errors/errors.go:101-136 | Deleting while iterating, in any order, leaves exactly the fresh entries and visits each of them once |
| Errors.ErrorCollector.GetActiveErrors | internal/errors/errors.go:101-115 | The error of every fresh entry once, and the expired entries deleted |
| Errors.ErrorCollector.GetActiveErrorCodes | internal/errors/errors.go:118-136 | The codes of the fresh entries without duplicates, and the expired entries deleted |
| Errors.ErrorCollector.Clear | internal/errors/errors.go:139-144 | Nothing remains |
| Errors.RunRefines | internal/errors/errors.go:84-144 | After any calls under a non-decreasing clock, the pruned map holds last reports only, and lacks only reports that have expired |
| Errors.FreshIsActive | internal/errors/errors.go:101-136 | At a later reading the fresh entries are exactly the keys whose last report since the last Clear is at most five minutes old |
| Errors.KeyedIsPairedIff | internal/errors/errors.go:84-98 | Asking the map by key finds the pair's last report if and only if the pair is not hidden, that is, no colliding pair was reported after it and after the last Clear |
| Errors.PlainNotHidden | internal/errors/errors.go:84-86 | While only codes without '\|' are reported, no reported pair is hidden |
| Errors.ReadingIsHistory | internal/errors/errors.go:101-115 | Every error a reading returns is the last one reported of a pair active in the plain history, each pair once; an active pair's error is returned if and only if the pair is not hidden |
| Errors.ReadingByCalls | internal/errors/errors.go:101-116 | By the calls alone: an error is read exactly if its pair is not hidden and it is the last report of the pair, with no Clear since and at most 300 seconds ago |
| Errors.CodesAreErrorCodes | internal/errors/errors.go:118-136 | The codes read at an instant are exactly the codes of the errors read at it, each once |
| Errors.KnownCodesReturned | internal/errors/errors.go:12-25 | While only declared codes are reported, a reading returns the last error of every active pair |
| Errors.BothReturnedIff | internal/errors/errors.go:89-115 | Two errors of different pairs, reported one after the other, are both returned if and only if their pairs do not collide; otherwise the second hides the first |
| Responses.ClassificationFollowsStatus | internal/transport/middleware.go:166-220 | For every status but 200 and any server-supplied text, the classification read from the error text holds exactly for 401, 402, 403, 404, 410, 411, 413 and 415 |
| Responses.NumberedMessage | internal/transport/client.go:261-273 | A message ending in any printed number contains none of the seven final phrases if its fixed text lacks one letter of each |
| Responses.FinalStatusNamed | internal/transport/client.go:261-273 | Every final status produces a message containing its own final phrase |
| Responses.OnlyDecoded200 | internal/transport/middleware.go:166-220 | A response is a success exactly if it is a 200 whose body decodes, and then the result is what was decoded |
| Responses.QuotaTold | internal/transport/middleware.go:180-191 | The error of a decoded 402 contains the server's message and its retry-after |
| Client.Client.constructor | internal/transport/client.go:83-98 | A limit that is not positive becomes 50 MiB; no statistics yet |
| Client.Client.Send | internal/transport/client.go:104-193 | An encoding failure or an oversize payload makes no post, sleep or report; otherwise the loop's outcome, every post with the same body, exactly one report with its code and message if and only if it fails, and new statistics only on success; if attempts before n are inconclusive and attempt n is answered by a decoded 200, exactly that reply after n + 1 posts and n sleeps |
| Client.Client.TryPosts | internal/transport/client.go:123-155 | The loop returns the outcome, posts and sleeps of the attempt recursion |
| Client.StopsAtFirstDecision | internal/transport/client.go:126-155 | The loop stops at the first success, final error or cancellation, with the posts made up to it and its result or error |
| Client.RetriesIff | internal/transport/client.go:126-155 | By the response: an attempt is tried again exactly if it is not cancelled and is answered by neither a decoded 200 nor one of the eight final statuses, and no final phrase occurs in a transport or decode error |
| Client.ReplyReturned | internal/transport/client.go:126-155 | The first attempt that is not tried again, if it is answered by a decoded 200, is what the loop returns, after its post |
| Client.FinalStatusReturned | internal/transport/client.go:126-155 | If it is answered by a final status, the loop ends after its post with an error that says so |
| Client.CancellationReturned | internal/transport/client.go:136-140 | If the context is cancelled before it, the loop ends without that post, with an error that gives the attempt's number and the context's error |
| Text.FormatReadsBack | internal/transport/client.go:138 | The numbers in the messages are the decimal digits of what they state |
| Client.ExhaustsAttempts | internal/transport/client.go:125-155 | If every attempt is retryable, all are made and the last error is returned |
| Client.ExactlyOneResultIff | internal/transport/client.go:125-155 | Exactly one of result and error, for every behaviour of the world, if and only if MaxRetries is not negative; then at most MaxRetries + 1 posts |
| Client.PostsForConstantStatus | internal/transport/client.go:126-155 | A backend that always answers one failing status is posted to once if the status is final and MaxRetries + 1 times otherwise |
| Client.SleepFitsIff | internal/transport/middleware.go:123-126 | A sleep of 2^n seconds fits int64 nanoseconds if and only if n is at most 33, and is then slept in full |
| Client.AllSleepsFitIff | internal/config/validate.go:35-37 | Every possible sleep fits if and only if MaxRetries is at most 34 |
| Client.TotalSleepIff | internal/transport/middleware.go:123-126 | The total sleep is 2^a - 1 seconds at every reachable attempt index a if and only if MaxRetries is at most 34 |
| Client.SleepLogTotal | internal/transport/client.go:127-134 | One sleep per attempt after the first, adding up to the total |
| Client.CopiesAreBody | internal/transport/client.go:142 | Every post carries the bytes encoded once before the loop |
| Informer.NextKeepsInv | internal/collector/resource/runner.go:14-38 | Every step of the runner, of Stop and of a health check keeps the protocol's invariant |
| Informer.RecoveryProtocol | internal/collector/resource/runner.go:14-38 | In every interleaving: at most four runs, at most one starting after stop closes, done closed at most once; without a stop it closes only after four runs and 30 s of restart sleep; the sleep before the n-th restart is 5n seconds |
| Informer.CrashRestarts | internal/collector/resource/runner.go:14-38 | A run that comes back while stop is open is restarted after 5 s times the runs so far, unless it was the fourth: then done closes |
| Informer.HealthVerdicts | internal/collector/resource/health.go:6-22 | An unhealthy answer is given only if all four runs returned with stop still open, and never by a check that begins after Stop returned |
| Informer.RunnerTerminates | internal/collector/resource/runner.go:14-38 | If each Run returns, the runner takes at most eighteen steps in any interleaving and is never stuck before done is closed |
| Informer.AtomicProbe | internal/collector/resource/health.go:6-22 | Two looks in a row, at done and then stop, answer as the function of the two channels |
| Phases.InsertInto | tests/e2e/cluster/cluster.go:228-234 | The in-place loop leaves the array as moving the key down past the greater elements does |
| Phases.InsertedInOrder | tests/e2e/cluster/cluster.go:228-234 | Into a sorted front, that leaves the front sorted and every phase's deployments in their order |
| Phases.SortedDeployments | tests/e2e/cluster/cluster.go:223-238 | A fresh array, sorted by order, with the deployments of each phase in their original order |
| Phases.StableIsPermutation | tests/e2e/cluster/cluster.go:223-238 | Keeping each phase's deployments makes the result a permutation |
| Phases.StableSortUnique | tests/e2e/cluster/cluster.go:223-238 | Sorted and stable determine the result |
| Phases.EmitPhases | tests/e2e/cluster/cluster.go:161-185 | Every deployment deployed once in order, every readiness check once, and each check after all deploys of its own and earlier phases and before all of later ones |
| Phases.GetDeploymentFuncs | tests/e2e/cluster/cluster.go:155-188 | The same from the unsorted list |
| Phases.EachExactlyOnce | tests/e2e/cluster/cluster.go:155-188 | Each deployment occurs in the emitted list as often as in the input, and so does each readiness check that is set |

## Left out

- Invalid UTF-8: strings are sequences of code points. The 64 KiB line limit is counted in UTF-8 bytes.
- Floating-point rounding and NaN: `float64` is `real`, so sums do not depend on their order here.
- int64 overflow of totals and uint64 wrap of counters: both are unbounded here.
- DeviceFold.UpdateDevice: takes MiB values whose byte counts are representable; the conversion of larger floats is platform-defined.
- StateMachine.StateMachine.HandleHTTPStatus: does not model overflow of a retry-after beyond 292 years of nanoseconds.
- UsageMerge.MergePodMetrics: the pods are values, so writing through the `Containers` slice shared with the pod store is not visible; the results are relative to the values on entry. SharedContainers.MergeUsage is the same join on shared slices.
- GpuMerge.MergeGpuContainerMetrics: the same; SharedContainers.MergeGpu is this join on shared slices.
- SharedContainers.RunRounds: no pod event falls between the builds, and the stored pods have slices of their own, as the conversion makes them; unsynchronised reads of a slice during a join are not modelled.
- Aggregation.Enrich: the three identical loops over Deployments, StatefulSets and DaemonSets are one method called three times, returning the new list.
- Build.BuildSnapshot: starts from the lists already read; the order of the concurrent reads is the subject of Backfill.BackfillUnderRaces. Identity fields, staleness and durations (steps 7 to 9) are not modelled.
- Backfill.BackfillUnderRaces: events and reads are atomic steps, as the store's lock makes them; the separately stored update time is not read here.
- Store.TypedStore.Values: `Get`, `Snapshot` and the reading of the update time have no caller among the modelled operations.
- SummaryTotals.ComputeSummary: namespaces, autoscalers, volumes and their storage totals are not part of the model.
- AgentLoop.AgentRunner.Run: begins after the informers have synced; the observe-then-transition of a tick is one step, and statuses arrive between ticks or during a send. The rest of the health report is left out.
- Errors.ErrorCollector.Report: the wrapped Go error inside an error is left out.
- Client.Client.Send: JSON, zstd and HTTP are the parameters `Encoding` and `World`; metrics are left out, and the collector is always present.
- Client.SleepFitsIff: past 2^62 the float no longer converts to an int64; the model sleeps zero there, as every platform's conversion makes the product non-positive.
- Informer.RecoveryProtocol: the goroutine and the channels are steps over a state, since a goroutine has no counterpart in a method; a Run returns at a time of its own choosing.
- Phases.GetDeploymentFuncs: the readiness wrapper's timeout and retry, the phase names in log lines and the place of those lines among the steps are left out.
- ParseFloat and the Kubernetes, Prometheus and HTTP libraries: parameters or outside the model.
- Discovery, cloud metadata, conversion from Kubernetes objects, the target and mount enrichers, the unused retrying and logging round trippers, configuration loading, the health server, memory pressure and observability: thin, or input and output only.
