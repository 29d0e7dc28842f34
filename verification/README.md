# Verified models of the work queue, the cost estimator, the request pool and the text stream

Four parts of the GKE samples that carry state or arithmetic, modelled in Dafny 4.11:

* **The leased work queue and its workers** (`batch/aiml-workloads/src`). `Redis`, `WorkQueue`,
  `Leasing`, `Abandonment`, `Checkpoints` and `Necessity` treat any number of workers as a step
  system: one step is one Redis command or file access, and workers start, crash and interleave
  anywhere while keys expire. A run is any sequence of events; an event that cannot happen changes
  nothing, so a statement about `Run(j, events)` is a statement about every interleaving.
  `SequentialWorker` is the client, the trainer and the worker loop as classes and methods, and its
  `RunWorker` is shown to be a run of the step system.
* **The Kubernetes cost estimator** (`cost-optimization/gke-shift-left-cost/api`). `Documents`,
  `Keys`, `Autoscalers`, `Defaults`, `Workloads`, `PriceScan`, `Linking`, `Loading`, `Estimates`,
  `DocumentOrder`, `DistinctNames`, `EstimateOrder`, `OrderExamples`, `Envelopes`, `Costs`, `Diff`,
  `Quotes`, `Summaries` and `Comparisons` hold the arithmetic, the key strings and the order of
  documents; `ManifestStore` holds the heap: each workload object is shared between the list of its
  kind and two entries of a reference map, and linking an autoscaler writes through the map. Money
  is exact (`real`), container quantities are 64-bit integers with wrap-around, percentages are
  floats with NaN and infinities.
* **The request pool** of the Redis hello application (`ResourcePool`), for any number of requests.
* **Incremental text streaming** of the Ray Serve deployment (`Streaming`).

What the models show about the code as it stands:

* The comments in `rediswq.py` (lines 81-83, 101-102, 119-121) speak of a collector that returns
  items whose lease expired. There is none: an item taken never waits again
  (`Leasing.NothingReturnsToTheQueue`). So leasing is at most once, and a worker that dies between
  taking and removing an item keeps every other worker from ever leaving its loop; that is the only
  way to be stuck (`Abandonment.EachCanLeaveIffNothingAbandoned`).
* `empty()` is right because it reads the main list first (`Necessity.ReversedReadsAreUnsound`).
* Unique items are needed for conservation and for leaving the loop only when all is done, and
  distinct dataset file stems for separate checkpoint chains, each exactly
  (`Necessity.ConservedIffItemsUnique`, `Necessity.ExitMeansDoneIffItemsUnique`,
  `Necessity.OwnChainsIffStemsUnique`).
* Which workload ends up with which autoscaler depends on the order of the documents exactly when a
  reference is ambiguous (`DocumentOrder.OrderFreeIffUnambiguous`): workloads may share a name as
  long as no autoscaler refers to both. The estimate depends on the order exactly when the ambiguity
  costs something (`EstimateOrder.SameEstimateIffIndifferent`); `OrderExamples` has documents whose
  estimates differ, and documents whose ambiguity does not show.
* The health check of the pool cannot fail: at most 45 of 50 resources are ever handed out.
* The largest reported percentage is NaN exactly when nothing is requested before and after.
* The computed limit of an unbounded resource is the intended one exactly when neither its product
  nor its sum leaves the 64-bit range; otherwise it can be negative (`Defaults.LimitCanBeNegative`).
  The clamp keeps the cost in the envelope even then (`Envelopes.DocumentsInEnvelope`).

`dafny verify dfyconfig.toml` checks the whole project.

## Model

The source takes the queued items to be unique. The `Abandonment` rows and, in `Leasing`, those of
`LeaseKeysNameTheirHolders`, `DeleteFindsOwnLease`, `LeaseIsSeenForItsTime`,
`CompleteRefinesAtomicRemoval` and `ProgressIsCounted` assume it too, and so do `EmptyIsNeverPremature`
and `ExitIsNeverPremature` where they speak of completed items, and `Checkpoints.ChainsPartitionTheQueue`.

| member | source | states |
|---|---|---|
| WorkQueue.LeasesTakeTheQueueInOrder | batch/aiml-workloads/src/rediswq.py:87-97 | in every run the leased items, in the order of all sessions' leases, followed by the reversed main list are the reversed initial list |
| Leasing.ItemsAreConserved | batch/aiml-workloads/src/rediswq.py:78-123 | for unique items: waiting, processing and completed items are together the initial ones, no item is leased twice or held by two workers, and each removal is by the leaser |
| Leasing.EmptyIsNeverPremature | batch/aiml-workloads/src/rediswq.py:61-68 | if LLEN main answers 0 and any later LLEN processing answers 0, both lists are empty from that read on for ever, and every initial item has been completed |
| Leasing.ExitIsNeverPremature | batch/aiml-workloads/src/worker.py:44-69 | a worker leaves its loop only when both lists are empty and all items are completed, and they stay so |
| Necessity.ReversedReadsAreUnsound | batch/aiml-workloads/src/rediswq.py:68 | for every nonempty queue, reading processing first and main second could answer 0 twice with the whole queue in processing |
| Necessity.ConservedIffItemsUnique | batch/aiml-workloads/src/rediswq.py:27-28 | items are conserved in every run if and only if the queued items are unique |
| Necessity.ExitMeansDoneIffItemsUnique | batch/aiml-workloads/src/worker.py:44-69 | in every run a worker leaves its loop only with every queued item completed, if and only if the queued items are unique |
| Leasing.NothingReturnsToTheQueue | batch/aiml-workloads/src/rediswq.py:81-83 | in any continuation of any run the main list is a prefix of what it was, lease expiry and crashes included |
| Leasing.LeaseKeysNameTheirHolders | batch/aiml-workloads/src/rediswq.py:98-108 | a present lease key names an item its stored session leased and that is no longer in main |
| Leasing.DeleteFindsOwnLease | batch/aiml-workloads/src/rediswq.py:122-123 | with an injective hash the DEL in complete() never removes another session's lease |
| Leasing.LeasesExpireInTime | batch/aiml-workloads/src/rediswq.py:104-108 | no lease outlasts the lease time counted from now, in any run |
| Leasing.LeaseIsSeenForItsTime | batch/aiml-workloads/src/rediswq.py:74-76 | with an injective hash, from the moment a worker has noted its lease EXISTS sees the key for exactly the lease time, as long as the worker, alive or crashed, has not completed the item, whatever the others do |
| Leasing.CompleteRefinesAtomicRemoval | batch/aiml-workloads/src/rediswq.py:111-123 | every event is one move of a queue with an atomic complete(): LREM removes exactly one item in progress, and DEL, SETEX, expiry and crashes between commands do not show |
| Leasing.ProgressIsCounted | batch/aiml-workloads/src/worker.py:44-67 | 2·main + processing is 2·initial minus the leases and removals so far, so each of them lowers it by one and nothing raises it |
| Abandonment.CrashAnywhere | batch/aiml-workloads/src/worker.py:44-67 | a worker can crash at any point of its loop, keeps what it holds, and changes nothing else |
| Abandonment.AbandonedItemBlocksEveryExit | batch/aiml-workloads/src/worker.py:44-67 | the item of a worker that crashed between pop and removal stays in processing in every continuation, and no worker ever exits |
| Abandonment.EachCanLeaveIffNothingAbandoned | batch/aiml-workloads/src/worker.py:44-69 | from every reachable state each worker that has not crashed can itself still leave its loop if and only if no crashed worker holds an item |
| Abandonment.ExitPossibleIffNothingAbandoned | batch/aiml-workloads/src/worker.py:44-69 | from every reachable state some worker, perhaps one still to be started, can leave its loop if and only if no crashed worker holds an item |
| Necessity.CrashAbandons | batch/aiml-workloads/src/rediswq.py:98-103 | for every nonempty queue there is a run in which a crash abandons an item |
| Checkpoints.CheckpointsAreOwnChains | batch/aiml-workloads/src/model_training.py:52-56 | given distinct stems, in every run each worker's checkpoint is the file of the item it saved last and holds the model fitted on its own leases in their order |
| Checkpoints.ChainsPartitionTheQueue | batch/aiml-workloads/src/worker.py:43-65 | once a worker has left its loop every queued item lies in exactly one worker's chain, once, and chains hold nothing else |
| Checkpoints.FinalCheckpointsAreWholeChains | batch/aiml-workloads/src/model_training.py:119-129 | once a worker has left its loop every worker's checkpoint holds its whole chain |
| Necessity.OwnChainsIffStemsUnique | batch/aiml-workloads/src/model_training.py:90-117 | for unique items and a fit that tells items apart, every worker keeps its own chain in every run if and only if the file stems are distinct |
| SequentialWorker.RedisWQ.Empty | batch/aiml-workloads/src/rediswq.py:61-68 | true exactly when both lists are empty |
| SequentialWorker.RedisWQ.LeaseExists | batch/aiml-workloads/src/rediswq.py:74-76 | sees exactly the keys whose time has not come, the visibility that LeaseIsSeenForItsTime is about |
| SequentialWorker.RedisWQ.Lease | batch/aiml-workloads/src/rediswq.py:78-109 | takes the tail of main to the head of processing and notes the lease, or changes nothing when main is empty |
| SequentialWorker.RedisWQ.Complete | batch/aiml-workloads/src/rediswq.py:111-123 | processing loses every occurrence of the value and nothing else, and its lease key is gone |
| SequentialWorker.FraudDetectionModelTrainer.constructor | batch/aiml-workloads/src/model_training.py:33-56 | the model is the one in the checkpoint file, or a new one without a checkpoint |
| SequentialWorker.FraudDetectionModelTrainer.TrainAndSave | batch/aiml-workloads/src/model_training.py:119-129 | the file named after the dataset, and no other, holds the model fitted once more |
| SequentialWorker.RunWorker | batch/aiml-workloads/src/worker.py:29-69 | a lone worker that finds processing empty exits after exactly as many iterations as items, having processed them tail to head; its checkpoint holds the model fitted on all of them, no processed item has a lease key left, and from a fresh queue this is a run of the step system |
| ResourcePool.Pool.Alloc | quickstarts/hello-app-redis/main.go:43-51 | succeeds exactly below 45 and then counts one more |
| ResourcePool.WebServer.Hello | quickstarts/hello-app-redis/main.go:108-127 | one step of a request, executed with the methods of the pool, is the step of the transition system |
| ResourcePool.WebServer.Healthz | quickstarts/hello-app-redis/main.go:93-103 | in every reachable state of the server the health check answers Ok |
| ResourcePool.Serve | quickstarts/hello-app-redis/main.go:43-127 | the pool driven through any interleaving of requests is in the state of the transition system, with its counter equal to the number of holders and at most 45 |
| ResourcePool.AllocatedCountsHolders | quickstarts/hello-app-redis/main.go:93-127 | in every interleaving the counter is the number of requests between a successful alloc and their release, lies in 0..45, and the health check succeeds |
| ResourcePool.RefusedExactlyWhenFull | quickstarts/hello-app-redis/main.go:112-115 | a request is refused exactly when 45 others hold a resource |
| Streaming.StreamResults | ai-ml/gke-ray/rayserve/llm/serve.py:71-79 | sends for each text what lies beyond the longest text so far, counts that length, and fails exactly when an output has not one text |
| Streaming.Longest | ai-ml/gke-ray/rayserve/llm/serve.py:72-79 | the returned count is the maximum length seen |
| Streaming.FaithfulIffGrowing | ai-ml/gke-ray/rayserve/llm/serve.py:71-79 | the concatenated chunks are the latest text at every cut of the stream if and only if each text extends the one before |
| Documents.JoinOfSplit | cost-optimization/gke-shift-left-cost/api/manifests.go:66-75 | rejoining the pieces with the separator gives back every text |
| Documents.SplitOfJoinIff | cost-optimization/gke-shift-left-cost/api/manifests.go:66-75 | joined documents are recovered if and only if none holds a separator and none but the last ends in a dash |
| ManifestStore.JoinedFileLoadsEach | cost-optimization/gke-shift-left-cost/api/manifests.go:66-75 | loading such documents joined in one file is loading each in turn |
| Keys.KeyLooksLike | cost-optimization/gke-shift-left-cost/api/types.go:277-283 | two keys written out |
| Keys.KeyInjective | cost-optimization/gke-shift-left-cost/api/types.go:277-283 | keys of '\|'-free parts are equal if and only if the parts are, the empty namespace counting as "default" |
| Keys.KindNameDropsVersion | cost-optimization/gke-shift-left-cost/api/types.go:285-288 | the kind name of a key is the key with an empty API version |
| Keys.ReferenceResolves | cost-optimization/gke-shift-left-cost/api/manifests.go:185-186 | a reference names a workload if and only if kind, namespace and name agree and the API version agrees or is left out |
| Autoscalers.BuildHPA | cost-optimization/gke-shift-left-cost/api/builder_hpa.go:35-132 | from an object of any version: the stated maximum, the stated minimum or 1, the stated CPU target or 0 (in the metrics the last one stated), and a target key that names exactly the workload meant |
| Autoscalers.BuiltAlikeIff | cost-optimization/gke-shift-left-cost/api/builder_hpa.go:49-132 | objects of any two versions build the same autoscaler if and only if they agree in every field, a missing minimum counting as 1, a missing CPU target as 0 and the empty namespace as "default" |
| Autoscalers.FindCpuTarget | cost-optimization/gke-shift-left-cost/api/builder_hpa.go:49-60 | the loop finds the CPU target that counts |
| Autoscalers.LaterMetricsWin | cost-optimization/gke-shift-left-cost/api/builder_hpa.go:49-60 | the CPU target that counts is that of the last metric stating one |
| Autoscalers.AutoscalerResolves | cost-optimization/gke-shift-left-cost/api/builder_hpa.go:124-127 | an autoscaler of any version resolves to exactly the workload it names, also without a target API version, and is never taken for a missing one |
| Defaults.PopulateConfigNotProvided | cost-optimization/gke-shift-left-cost/api/config.go:67-89 | fields left out take their defaults, the others stay |
| Defaults.PopulatedIsPositive | cost-optimization/gke-shift-left-cost/api/config.go:67-89 | a populated non-negative configuration is positive throughout |
| Defaults.LimitExactIff | cost-optimization/gke-shift-left-cost/api/types.go:367-373 | the 64-bit limit computation gives the intended value if and only if product and sum stay in range |
| Defaults.FittingLimit | cost-optimization/gke-shift-left-cost/api/types.go:367-373 | if request·(100+P) fits, the limit is exact and at least the request |
| Defaults.LimitCanBeNegative | cost-optimization/gke-shift-left-cost/api/types.go:367-373 | a memory request of 50,000,000,000,000,000 bytes without a limit gets a negative limit at the default 200 percent |
| Defaults.BuiltAsIntendedIff | cost-optimization/gke-shift-left-cost/api/types.go:349-373 | for a positive configuration and 64-bit quantities both limits built for a container are the intended ones if and only if the arithmetic of every limit to be computed stays in range |
| Defaults.BuildContainers | cost-optimization/gke-shift-left-cost/api/types.go:339-388 | for each container and both resources: what is stated stands, a request not stated is the limit and, without one, the default, and a limit not stated is computed from the request that was built |
| Defaults.BuiltIsPositive | cost-optimization/gke-shift-left-cost/api/types.go:349-373 | where every limit to be computed stays in range, all four quantities are positive, and a limit falls below its request exactly when both were stated that way |
| Defaults.ClampIsIdle | cost-optimization/gke-shift-left-cost/api/types.go:328-337 | where every limit to be computed stays in range, the clamp changes no cost unless some container states a limit below its request |
| Workloads.TotalContainers | cost-optimization/gke-shift-left-cost/api/types.go:390-400 | the sums of cores and bytes requested and limited |
| Workloads.EstimateCost | cost-optimization/gke-shift-left-cost/api/types.go:290-326 | the cost of the workload, whose columns the next four rows tell |
| Workloads.ScaledColumns | cost-optimization/gke-shift-left-cost/api/types.go:297-314 | with an autoscaler the buffer adds to the minimum the share of it that the CPU target leaves free, and nothing without a target, and the maximum is the minimum at the maximal number of replicas |
| Workloads.FixedColumns | cost-optimization/gke-shift-left-cost/api/types.go:315-323 | without an autoscaler minimum, maximum and buffer are equal |
| Workloads.LimitedColumns | cost-optimization/gke-shift-left-cost/api/types.go:290-337 | each limited column is the larger of the requested column and of what that would be were the limits requested |
| Workloads.OneContainerCost | cost-optimization/gke-shift-left-cost/api/types.go:290-326 | a container costs its cores at the price of a core and its bytes at the price of a byte, for each replica |
| Workloads.EstimateDaemonSet | cost-optimization/gke-shift-left-cost/api/types.go:181-196 | what a workload without autoscaler and with one replica for each node costs |
| Workloads.EstimateVolumeClaim | cost-optimization/gke-shift-left-cost/api/types.go:207-223 | requested columns are the bytes requested times the disk price, limited ones the larger of that and the bytes of the limit times the disk price |
| Workloads.PostProcessCost | cost-optimization/gke-shift-left-cost/api/types.go:328-337 | limits become the larger of limit and request, the rest stays |
| Workloads.WorkloadInEnvelope | cost-optimization/gke-shift-left-cost/api/types.go:290-337 | for non-negative requests and prices and a sound scale, whatever the limits: minima bound maxima, requests bound limits, and the buffer lies between one and two times the minimum |
| Workloads.EnvelopeIffScaleSound | cost-optimization/gke-shift-left-cost/api/types.go:290-337 | a workload that requests anything is in the envelope if and only if its replicas are not negative or, with an autoscaler, 0 ≤ min replicas ≤ max replicas and the CPU target is at most 100 or min replicas is 0 |
| Workloads.MergingCostsNoMore | cost-optimization/gke-shift-left-cost/api/types.go:297-337 | merging the containers of two equally scaled workloads costs exactly the sum in requests and buffer and at most the sum in limits |
| Costs.MonthlyTotal | cost-optimization/gke-shift-left-cost/api/cost.go:74-80 | the column-wise sum of the ranges |
| Costs.MarkdownTotal | cost-optimization/gke-shift-left-cost/api/cost.go:99-114 | the TOTAL row is the same sum, accumulated column by column |
| Costs.SumByColumn | cost-optimization/gke-shift-left-cost/api/cost.go:145-153 | every column of a sum is the sum of that column |
| Costs.SumKind | cost-optimization/gke-shift-left-cost/api/cost.go:74-114 | sums under two labels differ in the label only, so the TOTAL row equals the monthly total |
| Costs.SumPermuted | cost-optimization/gke-shift-left-cost/api/cost.go:145-153 | the sum does not depend on the order of the ranges |
| Costs.SumKeepsEnvelope | cost-optimization/gke-shift-left-cost/api/cost.go:145-153 | a sum of ranges in the envelope is in the envelope |
| Envelopes.EstimateInEnvelope | cost-optimization/gke-shift-left-cost/api/manifests.go:78-141 | for loaded objects with non-negative requests and sound autoscalers every kind's range and the grand total lie in the envelope |
| Envelopes.DocumentsInEnvelope | cost-optimization/gke-shift-left-cost/api/manifests.go:78-228 | the same for the estimate of documents with non-negative replicas and requests and sound autoscalers, under any configuration with non-negative defaults and any non-negative prices, also where a computed limit overflows |
| Estimates.TotalIsFlatSum | cost-optimization/gke-shift-left-cost/api/manifests.go:78-141 | the total over the kinds is the flat sum of the single objects' costs, template claims included |
| Estimates.TotalIsSumOverDocuments | cost-optimization/gke-shift-left-cost/api/manifests.go:78-228 | the monthly total is the sum, document by document, of what each one costs with the autoscaler it ends up with, each StatefulSet template claim once |
| Estimates.RangesAreSumsOverDocuments | cost-optimization/gke-shift-left-cost/api/manifests.go:78-141 | the estimate has one range for each kind that the documents cost anything of, in a fixed order, and it is the sum of the documents' costs of that kind |
| Estimates.EstimatedTwice | cost-optimization/gke-shift-left-cost/api/manifests.go:78-79 | estimating a second time gives the same ranges |
| DocumentOrder.OrderFreeIffUnambiguous | cost-optimization/gke-shift-left-cost/api/manifests.go:143-225 | every order of the documents gives the same objects with the same autoscalers if and only if, in each kind, no autoscaler names two different workloads and no two different autoscalers name one workload |
| DocumentOrder.DocumentOrderIsIrrelevant | cost-optimization/gke-shift-left-cost/api/manifests.go:78-225 | under that condition every order of the documents gives the same estimate |
| EstimateOrder.SameEstimateIffIndifferent | cost-optimization/gke-shift-left-cost/api/manifests.go:78-225 | the estimate is the same in every order of the documents if and only if, in each kind, all autoscalers that name a workload cost it the same and any two workloads that one autoscaler names can change places without a change of cost |
| EstimateOrder.UnsharedSameEstimateIff | cost-optimization/gke-shift-left-cost/api/manifests.go:78-225 | where no autoscaler names two different workloads, the estimate is the same in every order if and only if all autoscalers that name a workload cost it the same |
| EstimateOrder.NamesNested | cost-optimization/gke-shift-left-cost/api/manifests.go:181-187 | two references that share a workload name nested sets of workloads |
| OrderExamples.LastAutoscalerDecides | cost-optimization/gke-shift-left-cost/api/manifests.go:143-156 | for a deployment of one core and two autoscalers the two orders of the autoscalers give different estimates |
| OrderExamples.LastNamesakeIsScaled | cost-optimization/gke-shift-left-cost/api/manifests.go:181-187 | for two deployments with one name and an autoscaler the two orders of the deployments give different estimates |
| OrderExamples.AmbiguousYetTheSame | cost-optimization/gke-shift-left-cost/api/manifests.go:143-225 | without containers the same three documents are ambiguous and yet every order gives the same estimate |
| DistinctNames.DistinctNamesAreUnambiguous | cost-optimization/gke-shift-left-cost/api/manifests.go:143-225 | documents with distinct names in each kind, none named by two different autoscalers, meet the condition |
| DistinctNames.ResolvesInOneMap | cost-optimization/gke-shift-left-cost/api/manifests.go:146-154 | no target reference resolves in more than one of the three maps |
| Linking.OrderFreeIffOneEach | cost-optimization/gke-shift-left-cost/api/manifests.go:143-156 | every order of the autoscalers links alike if and only if no two different ones resolve to one workload |
| Linking.LinkedAlikeIffUnambiguous | cost-optimization/gke-shift-left-cost/api/manifests.go:143-156 | for workloads as loaded, every order of workloads and autoscalers links the same workloads to the same autoscalers if and only if no reference is ambiguous |
| Linking.LinkedPermuted | cost-optimization/gke-shift-left-cost/api/manifests.go:143-156 | unambiguous references link alike in every order, equal workloads included |
| Linking.SharedNameDependsOnOrder | cost-optimization/gke-shift-left-cost/api/manifests.go:181-187 | of two different workloads that one autoscaler names the one loaded last gets it, so the two orders link differently |
| Linking.SharedTargetDependsOnOrder | cost-optimization/gke-shift-left-cost/api/manifests.go:143-156 | of two different autoscalers that name one workload the one loaded last stays, so the two orders link differently |
| Linking.LatestAppended | cost-optimization/gke-shift-left-cost/api/manifests.go:185-186 | a workload loaded later takes over exactly the references that name it |
| ManifestStore.Registry.Add | cost-optimization/gke-shift-left-cost/api/manifests.go:181-186 | appends to the list and keeps every map value an element of the list, the last its key names |
| ManifestStore.Registry.Link | cost-optimization/gke-shift-left-cost/api/manifests.go:145-148 | writing through the map changes the autoscaler of exactly the list element the target names |
| ManifestStore.Registry.EstimateCost | cost-optimization/gke-shift-left-cost/api/manifests.go:103-125 | the sum of the costs of the listed workloads |
| ManifestStore.BuildClaim | cost-optimization/gke-shift-left-cost/api/builder_volumeclaim.go:44-66 | storage class, request and limit with their defaults |
| ManifestStore.BuildClaims | cost-optimization/gke-shift-left-cost/api/builder_statefulset.go:50-58 | one claim for each template, in order |
| ManifestStore.BuildWorkload | cost-optimization/gke-shift-left-cost/api/builder_statefulset.go:42-65 | a new object with its key, its replicas (1 by default), its containers and no autoscaler |
| ManifestStore.BuildDaemonSet | cost-optimization/gke-shift-left-cost/api/builder_daemonset.go:42-50 | its key, its containers and the configured or default number of nodes |
| ManifestStore.Manifests.LoadObject | cost-optimization/gke-shift-left-cost/api/manifests.go:158-228 | a document adds its object to the list of its kind, a StatefulSet also its claims, an unsupported one nothing, and only an undecodable one fails |
| ManifestStore.Manifests.LoadObjects | cost-optimization/gke-shift-left-cost/api/manifests.go:66-75 | succeeds exactly when every piece decodes, and has loaded, in order, all pieces before the first that does not |
| ManifestStore.Manifests.LoadObjectsFromPath | cost-optimization/gke-shift-left-cost/api/manifests.go:42-62 | the same over all YAML files of a directory walk, an unreadable file stopping it like a piece that does not decode |
| ManifestStore.YamlSuffix | cost-optimization/gke-shift-left-cost/api/manifests.go:44-45 | the files loaded are those whose path ends in ".yaml" or ".yml" |
| ManifestStore.Manifests.PrepareForCostEstimation | cost-optimization/gke-shift-left-cost/api/manifests.go:143-156 | every autoscaler in turn is linked in every kind, and the heap invariant is kept |
| ManifestStore.Manifests.EstimateCost | cost-optimization/gke-shift-left-cost/api/manifests.go:78-101 | links, then answers one range for each kind that is loaded |
| ManifestStore.EstimatePath | cost-optimization/gke-shift-left-cost/main.go:139-147 | the ranges of a path are the estimate of the documents of its YAML files, and there are none if one fails |
| Diff.PercentageIs | cost-optimization/gke-shift-left-cost/api/cost.go:156-179 | a percentage is the change in hundredths of the current amount, and NaN or an infinity by the sign of the change where that is zero |
| Diff.PercentageSign | cost-optimization/gke-shift-left-cost/api/cost.go:165-170 | a percentage has the sign of the change if and only if the current amount is not negative or nothing changed |
| Diff.TruthfulIff | cost-optimization/gke-shift-left-cost/api/cost.go:156-179 | the report tells every column's change if and only if no changed column is negative now |
| Summaries.DiffReportIsTruthful | cost-optimization/gke-shift-left-cost/api/cost.go:288-338 | for non-negative totals, zero included, a column is listed as increased (decreased) exactly when it went up (down), "no change" is said exactly when all five are equal, the sentence tells the same, and previous plus difference is current |
| Comparisons.ReportOnDocumentsIsTruthful | cost-optimization/gke-shift-left-cost/api/cost.go:83-96 | the same for the monthly totals of two sets of documents, the current ones sound, the previous ones any |
| Summaries.Status | cost-optimization/gke-shift-left-cost/api/cost.go:288-338 | for non-negative current amounts: the sentence holds "increase in costs on" exactly when a column went up, the quoted words after it are exactly those columns in report order, likewise for "decrease", "No cost change found!" stands exactly when all are equal, and an increase is flagged exactly when there is one |
| Diff.MaxPercentage | cost-optimization/gke-shift-left-cost/api/cost.go:181-196 | the largest percentage, or NaN exactly when the first column is NaN |
| Diff.MaxIsNaNIffNothingRequested | cost-optimization/gke-shift-left-cost/api/cost.go:251-257 | which is when the minimum requested cost is zero before and after |
| PriceScan.Contains | cost-optimization/gke-shift-left-cost/api/resource_price.go:155-162 | true exactly when some region equals the wanted one under the case folding |
| PriceScan.SkuMatcher | cost-optimization/gke-shift-left-cost/api/resource_price.go:127-130 | true exactly when the description starts with the prefix and the region is served |
| PriceScan.RetrievePrices | cost-optimization/gke-shift-left-cost/api/resource_price.go:61-103 | stopping early prices what scanning everything before an error finds; for a known family the prices of a core, of a byte of memory and of a byte of disk are each that of the first SKU of its category; an error counts only while a price is missing |
| PriceScan.CalculateMonthlyPrice | cost-optimization/gke-shift-left-cost/api/resource_price.go:132-153 | 744 times the price of an hour, for bytes divided by 2^30, or the price of a month divided by 2^30; no price for another unit |
| PriceScan.MemoryPriceAlone | cost-optimization/gke-shift-left-cost/api/resource_price.go:87-102 | another unit price of the memory SKU changes the price of memory and no other |
| PriceScan.PrefixesName | cost-optimization/gke-shift-left-cost/api/resource_price.go:28-44 | a prefix names its family first and its resource last |
| PriceScan.CatalogNonNegative | cost-optimization/gke-shift-left-cost/api/resource_price.go:132-153 | the monthly prices are non-negative if and only if the unit prices of the three selected SKUs are |
| PriceScan.OneCategory | cost-optimization/gke-shift-left-cost/api/resource_price.go:28-42 | no description of a known family carries two of its three prefixes |
| PriceScan.FindsFirstIffKnown | cost-optimization/gke-shift-left-cost/api/resource_price.go:75-81 | the scan selects the first SKU of each category for every stream if and only if the machine family is a known one |
| PriceScan.FailsExactlyWithoutMatch | cost-optimization/gke-shift-left-cost/api/resource_price.go:83-85 | for a known family it finds all three exactly when each category has a match |

## Left out

- Redis networking, client options and real time: each command keeps its atomic effect only, the clock is an abstract counter, and a blocking pop answers nil only when the main list is empty.
- SHA-224: an arbitrary function from items to strings, injective only where a lemma says so.
- scikit-learn, pandas and pickle: `partial_fit` is an arbitrary function of model and dataset, so its own randomness is not modelled; a missing checkpoint file crashes the worker.
- The accuracy report that a worker appends after saving: it changes nothing the loop reads.
- Session identifiers: a started worker has a number never used before, as a random UUID is taken to be.
- YAML decoding, kind detection and the Kubernetes scheme: an arbitrary function from the text of a document to a decoded document.
- The three Go structs Deployment, ReplicaSet and StatefulSet: one class, and the list and the reference map of a kind are the two fields of one object; a StatefulSet's own list of claims, never read again after loading, is not kept.
- DaemonSets and volume claims: values instead of heap objects, because nothing changes them after they are built.
- Case folding of regions: an arbitrary function of single characters.
- The price client, and SKUs without pricing info or tiered rates: the Go code would panic on them.
- Float rounding of costs: reals are exact; only the percentages keep NaN and the infinities.
- Resource metrics without a resource body: the Go builders would panic on them.
- JSON and Markdown rendering apart from the TOTAL row and the summary sentence, flags and HTTP replies; a directory walk is the sequence of its entries.
- The lease-time arguments other than those the worker passes, and the non-blocking form of `lease()`, whose effect on the data is the same.
- Enqueuing while workers run: a run starts with the whole queue waiting, nothing in processing and no lease keys; files of earlier runs may be there.
- A crash in the middle of writing a checkpoint: saving a file is one step.
