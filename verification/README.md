# Verified model of the block checker's campaign engine

The program probes which traffic-shaping strategies get through to which domains. This project models the parts of
it that decide what is probed, in which order, by whom, and what the results mean, and proves what they promise.

* `Genetics`, `Heapq`, `QueueSpec`, `AdaptiveQueue`, `Reservoir` and `Campaign`: the adaptive job queue. It is a binary heap with
  lazy deletion over a dictionary of waiting jobs. Entries of jobs that no longer wait and entries with outdated
  priorities stay in the heap until they surface. `QueueSpec` says what each operation means on the abstract contents;
  the class in `AdaptiveQueue` is proved against it, heap and indexes included.
* `Quarantine`: the state machine that gives up on domains that never pass.
* `StalePriority`: runs in which a popped job is worse than another by the whole bound.
* `AdaptiveRunner`: one worker draining the queue in batches, and a whole campaign; `RunResults`: what the results of a run add up
  to in counters, tracker events and weights.
* `QueueInterleaving`: any number of workers on one adaptive queue, as atomic steps in any order. Its pops may choose any
  eligible job; `SecondHandout` carries the results over to the queue itself.
* `BridgePool`: any number of workers on a fixed queue with domain isolation, as a step system: a step is the code
  between two awaits, and no lock body awaits.
* `CurlProbe`: repeated probes and the wall-clock budget of a batch against list scheduling.
* `DnsWire`: DNS queries and responses on the wire (sections 3.1 and 4.1.1 to 4.1.4 of RFC 1035).
* `FamilyGates`: the TCP run that skips the dependents of families that passed.
* `HostsFile`: the file of pinned addresses: parse, print, merge, rewrite.
* `Prune`: age-pruning of result tables, preview against effect, in three-valued SQL logic.

`Wrappers` and `Text` hold options, lists, dictionary order and text search.

Objects that the program updates in place are classes whose methods are proved against functions of their contents.
Random numbers, probe results, durations and the backend are arbitrary inputs, so every result holds for all of them.
Dictionaries that the program iterates in insertion order carry that order as a list.

Where the code and what one would expect of it differ, the code is modelled:

* A popped job has the highest *recorded* priority among the allowed jobs (`QueueSpec.Ruled`), which need not be the highest
  priority: it is exactly if no job whose entries are all stale is worth more (`QueueSpec.BestUnlessStaleBeats`). The rule needs
  that no entry records too much, which holds while labels determine strategies and no weight is loaded above the cap; the queue
  keeps a ghost catalog as long as that is so. The distance from the best is bounded by the PASS boosts since the last heap
  rebuild (`QueueSpec.LeastServesNearBest`), and the bound is attained (`StalePriority.StaleIsServedFirst`).
* The heap is rebuilt after so many PASSes, not after so many results, as the comment at `adaptive_queue.py:488` has it.
* With several workers a key in flight can be enqueued again by a sibling's PASS and handed out twice
  (`QueueInterleaving.SecondHandoutHappens`). It is bound to be, by further pops in whatever order, exactly when such a PASS
  finds it on an allowed domain, neither waiting nor finished (`RepeatsExactlyWhenRevived`). Which pop hands it out depends:
  exploring, any pop can (`SecondHandout.ExploreFor`); not exploring, the first one at which its entry is first
  (`AdaptiveJobQueue.Pop`), after at most as many as there are eligible keys (`SecondHandout.PopUntil`). With one worker each
  key is handed out once.
* The query builder accepts labels of more than 63 octets and more than 127 labels, which the name walk does not read
  back. `DnsWire.WalksOwnQuery` says when it does, except for labels of 64 to 191 octets, for which the text decides
  (`DnsWire.TextDecides`).
* The prune preview counts orphans also when a result table is missing; the deletion then fails and is undone
  (`Prune.PreviewIsEffect`).
* A hosts record that is not a word with an address is written as it is and read back differently
  (`HostsFile.DumpThenParse`, `ProviderStore.WriteHosts`).
* The three faked families overwrite each other's result, so that a family of them that is skipped opens the gate that a PASS
  had closed (`FamilyGates.FakedGateReopens`). The gate is exactly the result of the last one finished.
* With quick break the repeat loop judges by the first attempt alone (`CurlProbe.SequentialRepeats`).

## Model

| member | source | states |
|---|---|---|
| AdaptiveQueue.AdaptiveJobQueue.Pop | src/blockchecks/engine/adaptive_queue.py:437-485 | For every queue state, soft exclusion, roll and draws: `None` exactly when no waiting job lies outside the hard exclusions; a softly excluded job only when every eligible job is softly excluded; the served key stops waiting and every other eligible job still waits. If the roll is below `epsilon` and more than one job waits, the job is the sampler's choice. Otherwise, with a catalog, it is the job of the first entry: the one with the highest recorded priority, and among equals the lowest serial, of all entries of allowed jobs, with tombstones, stale, softly and hard-excluded entries anywhere; it is the best job exactly if no allowed job whose entries are all stale is worth more. Always it is then within `boosts` rises of the best, and the best if there were no boosts; its entry is its own and current |
| AdaptiveQueue.ExploringIsAsLikely | src/blockchecks/engine/adaptive_queue.py:449-454 | With more than one job waiting exactly the rolls in [0, epsilon) explore, so of n evenly spaced rolls m do when epsilon is m/n; a single waiting job is never explored for |
| AdaptiveQueue.AdaptiveJobQueue.PopBest | src/blockchecks/engine/adaptive_queue.py:455-485 | The exploiting loop ends and serves by that rule, and leaves an entry for every job that still waits; if the entry in front is live, current and allowed, nothing else is touched |
| AdaptiveQueue.AdaptiveJobQueue.SurfaceNext | src/blockchecks/engine/adaptive_queue.py:455-476 | One turn of the loop serves a job or lowers heap size plus number of stale entries, which is why the loop ends; jobs under hard exclusion that surface are finished for good |
| AdaptiveQueue.AdaptiveJobQueue.Surface | src/blockchecks/engine/adaptive_queue.py:455-485 | The loop stays on course: whatever it forgets, refreshes, sets aside or discards, it serves the key that was first when it began |
| QueueSpec.RefreshingStaysOnCourse | src/blockchecks/engine/adaptive_queue.py:390-394 | A refreshed entry of the first job is first again |
| QueueSpec.SettingAsideStaysOnCourse | src/blockchecks/engine/adaptive_queue.py:455-485 | Setting a softly excluded entry aside keeps the course, also when only such entries are left and the one set aside first will be served |
| QueueSpec.SomeEntryIsFirst | src/blockchecks/engine/adaptive_queue.py:455-485 | While some job is eligible there is exactly one first entry, so the rule determines the job |
| QueueSpec.BestUnlessStaleBeats | src/blockchecks/engine/adaptive_queue.py:455-485 | The job that the rule serves is the best exactly if no allowed job whose entries are all stale is worth more |
| QueueSpec.ModestStays | src/blockchecks/engine/adaptive_queue.py:384-411 | No entry, of a waiting job or not, ever records more than the strategy of its label is worth, nor less by more than one rise for each PASS since the heap was rebuilt, through loss of jobs and entries, new jobs and fresh entries |
| QueueSpec.LeastServesNearBest | src/blockchecks/engine/adaptive_queue.py:455-476 | The least recorded entry, once found current, has a current priority no lower than that of any eligible job outside the soft exclusions minus k times the largest rise of one PASS, k being the PASS boosts since the last rebuild |
| StalePriority.StaleIsServedFirst | src/blockchecks/engine/adaptive_queue.py:437-511 | The bound is attained: for every k up to the cap there is a run in which, after k PASSes, a job is served although an eligible job on the same domain is ahead by exactly k of its own rises |
| StalePriority.FewerRisesDoNotDo | src/blockchecks/engine/adaptive_queue.py:240-258 | In such a state no bound with fewer rises holds |
| AdaptiveQueue.AdaptiveJobQueue.FallBack | src/blockchecks/engine/adaptive_queue.py:478-485 | With the heap exhausted: nothing is served only if nothing was set aside; otherwise the first entry set aside is, the rest is restored, and every eligible job is softly excluded |
| AdaptiveQueue.AdaptiveJobQueue.Insert | src/blockchecks/engine/adaptive_queue.py:402-411 | A new job waits, with an entry of its current priority; the coverage, serial and label-index invariant is kept |
| AdaptiveQueue.AdaptiveJobQueue.Enqueue | src/blockchecks/engine/adaptive_queue.py:402-411 | Adds a job exactly when its key neither waits nor is finished, and says so |
| AdaptiveQueue.AdaptiveJobQueue.DropPending | src/blockchecks/engine/adaptive_queue.py:384-388 | Removes a key from the waiting jobs, the insertion order and the keys of its label; the label itself stays |
| AdaptiveQueue.AdaptiveJobQueue.RefreshStaleEntry | src/blockchecks/engine/adaptive_queue.py:390-394 | Replaces a surfaced stale entry by a current one; no other entry becomes stale |
| AdaptiveQueue.AdaptiveJobQueue.RebuildHeap | src/blockchecks/engine/adaptive_queue.py:537-544 | Afterwards there is one entry per waiting job, every recorded priority is the current one, and the staleness count restarts |
| AdaptiveQueue.AdaptiveJobQueue.MaybeRebuildHeap | src/blockchecks/engine/adaptive_queue.py:492-498 | The counter goes up by one and back to 0 at `rebuildEvery`, with a rebuild exactly then; nothing happens when rebuilding is off |
| AdaptiveQueue.AdaptiveJobQueue.MarkDone | src/blockchecks/engine/adaptive_queue.py:500-511 | The key is finished; on a PASS the weights are boosted, the strategy is fanned out and the rebuild counter moves; k grows by at most one and, once paced, stays below the number of PASSes between rebuilds |
| AdaptiveQueue.AdaptiveJobQueue.FanoutOnPass | src/blockchecks/engine/adaptive_queue.py:513-535 | Puts the strategy on every sibling that is not hard-excluded, whether or not the cluster index was cached, and counts the new jobs |
| AdaptiveQueue.AdaptiveJobQueue.FilterResume | src/blockchecks/engine/adaptive_queue.py:628-657 | Exactly the waiting jobs that the resume check reports move to the finished keys, and their number is returned |
| QueueSpec.DropKeeps | src/blockchecks/engine/adaptive_queue.py:384-388 | Dropping a key keeps the invariant: an entry in reach per waiting key, distinct serials, the label index equal to the waiting keys by label, waiting and finished keys disjoint |
| QueueSpec.AddKeeps | src/blockchecks/engine/adaptive_queue.py:380-382 | Adding a job with its entry keeps that invariant |
| QueueSpec.BoostKeeps | src/blockchecks/engine/adaptive_queue.py:500-511 | A PASS boost keeps it: recorded priorities stay within k rises of the current ones, and below the cap none is too high, since no priority falls |
| QueueSpec.RebuildKeeps | src/blockchecks/engine/adaptive_queue.py:537-544 | A rebuild keeps it with k = 0 |
| QueueSpec.RefreshKeeps | src/blockchecks/engine/adaptive_queue.py:390-394 | Replacing the entries of one key by a current one keeps it |
| QueueSpec.OnlySetAsideLeft | src/blockchecks/engine/adaptive_queue.py:478-485 | If only entries set aside are left, every eligible job is softly excluded |
| QueueSpec.TakingLeavesFewerStale | src/blockchecks/engine/adaptive_queue.py:390-394 | Surfacing a stale entry lowers the number of stale entries, which is what ends the loop |
| QueueSpec.MarkDoneMeans | src/blockchecks/engine/adaptive_queue.py:500-535 | What finishing a job changes, key by key: nothing stops waiting but its key, and on a PASS the new jobs are fan-out copies of its strategy on allowed siblings, none of which is left out |
| QueueSpec.FanOutAdds | src/blockchecks/engine/adaptive_queue.py:518-535 | Fan-out adds exactly the sibling keys that neither wait nor are finished nor are hard-excluded |
| QueueSpec.IndexFindsSiblings | src/blockchecks/engine/adaptive_queue.py:45-63 | Looking siblings up in the cluster index gives the same list, in order, as scanning all domains |
| QueueSpec.SiblingsAre | src/blockchecks/engine/adaptive_queue.py:53-63 | The siblings are exactly the other domains of the same cluster |
| QueueSpec.FinishAllMeans | src/blockchecks/engine/adaptive_queue.py:628-657 | Finishing a list of completed keys moves exactly those |
| Genetics.ScanWeights.BoostPass | src/blockchecks/engine/adaptive_queue.py:248-258 | Raises family, blob and trait weights by 1, 0.5 and 0.4 up to the cap of 64 |
| Genetics.BoostRise | src/blockchecks/engine/adaptive_queue.py:240-258 | One PASS raises no strategy's priority by more than 1 + 0.5 per blob + 0.4 per trait |
| Genetics.BoostHelpsRelatives | src/blockchecks/engine/adaptive_queue.py:240-258 | A PASS lowers no priority, keeps the cap, and raises that of a family member below the cap |
| Genetics.FullRise | src/blockchecks/engine/adaptive_queue.py:240-258 | Below the cap a PASS raises the own priority of a strategy by exactly that much |
| Heapq.HeapPush | src/blockchecks/engine/adaptive_queue.py:380-382 | The heap primitive: adds one entry and keeps the heap order |
| Heapq.HeapPop | src/blockchecks/engine/adaptive_queue.py:455-457 | The heap primitive: removes an entry no greater than any other and keeps the heap order, by sinking to a leaf and rising back |
| Heapq.Heapify | src/blockchecks/engine/adaptive_queue.py:537-544 | The heap primitive: any list becomes a heap of the same entries |
| Heapq.RootIsLeast | src/blockchecks/engine/adaptive_queue.py:338-341 | In a heap the root is least, priority first and serial second |
| Heapq.RiseStep | src/blockchecks/engine/adaptive_queue.py:380-382 | Swapping an entry with its greater parent moves the only possible fault one level up |
| Heapq.SinkStep | src/blockchecks/engine/adaptive_queue.py:455-457 | Swapping an entry with its least child moves the hole one level down |
| AdaptiveQueue.AdaptiveJobQueue.EpsilonPickKey | src/blockchecks/engine/adaptive_queue.py:416-435 | Samples the waiting keys outside all exclusions, or else those outside the hard ones |
| Reservoir.Sample | src/blockchecks/engine/adaptive_queue.py:416-435 | One pass of the sampler chooses what the last draw equal to 1 points at |
| Reservoir.AllDrawsAre | src/blockchecks/engine/adaptive_queue.py:416-435 | The draw sequences counted are exactly those that draws from 1..i can give |
| Reservoir.PickIsFair | src/blockchecks/engine/adaptive_queue.py:416-435 | Each of n positions is chosen by exactly (n-1)! of the n! draw sequences |
| Reservoir.EveryKeyIsFair | src/blockchecks/engine/adaptive_queue.py:416-435 | Each of n distinct keys is picked by exactly (n-1)! of the n! draw sequences |
| Reservoir.DrawsForPick | src/blockchecks/engine/adaptive_queue.py:416-435 | Each candidate has draws that pick it |
| AdaptiveQueue.AdaptiveJobQueue.ExploringIsFair | src/blockchecks/engine/adaptive_queue.py:416-459 | In any queue state the candidates of an exploring pop are exactly the eligible jobs outside the soft exclusions, and each is picked by (n-1)! of the n! draw sequences |
| Campaign.Build | src/blockchecks/engine/adaptive_queue.py:546-584 | The built queue holds exactly the matrix keys outside the skipped domains and keys, each as an ordinary job; the skipped keys of the matrix are finished |
| AdaptiveRunner.BatchJobAccumulator.Push | src/blockchecks/service/batch_scheduler.py:107-122 | A job is collected unless it is a fan-out copy, of another protocol, or already there |
| AdaptiveRunner.Account | src/blockchecks/engine/adaptive_runner.py:220-235 | The queue learns the outcome: only a result that ran and passed boosts the weights and fans out; the tracker advances by this result, and the domain is hard-excluded exactly when the result puts it under quarantine |
| AdaptiveRunner.FlushBatch | src/blockchecks/engine/adaptive_runner.py:240-259 | Accounting a batch in order, with any outcomes, leaves no key of the batch waiting: copies that a PASS puts back are finished before the flush ends. Without a PASS in the batch nothing starts waiting |
| AdaptiveRunner.FannedOutKeyIsInBatch | src/blockchecks/engine/adaptive_runner.py:240-306 | With one worker, a key that fan-out can put back is one of the unaccounted keys of the same batch |
| AdaptiveRunner.LoneJobNeverFansOut | src/blockchecks/engine/adaptive_queue.py:518-535 | In the sequential campaign, with batches of one job, fan-out never adds a job |
| AdaptiveRunner.TrackedAfterMark | src/blockchecks/engine/adaptive_runner.py:220-229 | Accounting one job keeps each key in its place: waiting, held, in the batch, or handed out once |
| AdaptiveRunner.AfterPop | src/blockchecks/engine/adaptive_runner.py:261-268 | Between flushes a popped job is never a fan-out copy, never in the accumulator and never handed out before |
| AdaptiveRunner.RefusedHasOtherLabel | src/blockchecks/engine/adaptive_runner.py:294-300 | A refused job has another label than every job collected, so the flush before it cannot bring its key back |
| AdaptiveRunner.PopIsolated | src/blockchecks/engine/adaptive_runner.py:261-268 | Pops outside the active and quarantined domains where some eligible job allows it; the sampler chooses if the roll is below `epsilon` and more than one job waits, else the pop goes by the rule and within the bound |
| AdaptiveRunner.TurnMoves | src/blockchecks/engine/adaptive_runner.py:238-306 | The active domains of a worker are those of the jobs popped and not yet flushed, beyond the initial quarantine; the only one that can be missing is that of a job whose domain was also in the batch flushed to make room for it |
| AdaptiveRunner.NoPassLeavesAlone | src/blockchecks/engine/adaptive_runner.py:220-235 | As long as nothing passes, the weights stay, every entry of the heap records what its strategy was worth at the start, and every pop that neither explores nor falls back gives the best job by that |
| AdaptiveRunner.RunBridgeWorker | src/blockchecks/engine/adaptive_runner.py:276-309 | A single worker without stop ends. It hands each key out at most once and only eligible ones, and finishes them; a waiting key is left out only if its domain was or became excluded, which is so exactly if the tracker put it under quarantine meanwhile; without a tracker exactly the eligible keys are handed out. Tracker and counters are those of the results of the run, and the weights are the initial ones boosted once, in order, for each job that passed. The log tells each pop: the weights it saw are those of the PASSes accounted before it, it is within as many rises of the best, and within `bridgeBatch - 1` from a fresh heap; it used its own roll and draws, explored by the sampler or served by the rule of `Pop`, and kept off the domains quarantined by then and those in flight |
| AdaptiveRunner.RunCampaign | src/blockchecks/engine/adaptive_runner.py:42-309 | From the matrix to the empty queue: only keys of the matrix outside quarantined domains, skipped keys and completed keys are handed out, each once; one left out lies on a domain that the tracker condemned. The counters are the numbers of jobs, of skipped and of passed ones, and the final weights are the initial ones boosted once, in order, for exactly the jobs that passed. Each pop is told as by `RunBridgeWorker`. All outcomes, rolls, draws and batch sizes |
| AdaptiveRunner.BuildAdaptiveQueue | src/blockchecks/engine/adaptive_runner.py:42-86 | The queue holds exactly those keys, with the number of finished keys returned |
| AdaptiveRunner.LeftOutWereCondemned | src/blockchecks/engine/domain_quarantine.py:124-184 | With a tracker that starts empty, the condemned domains are exactly those that the results of the run convict by the rule of `TraceDecides` |
| AdaptiveRunner.ResumedIsReady | src/blockchecks/engine/adaptive_queue.py:628-657 | Filtering completed keys leaves a queue to which the worker's promises apply |
| RunResults.TallyCounts | src/blockchecks/engine/adaptive_runner.py:220-235 | Counting result by result gives the number of jobs, of skipped and of passed ones |
| RunResults.NoPassNoBoost | src/blockchecks/engine/adaptive_queue.py:500-507 | Results without a PASS leave the weights as they were |
| RunResults.FamilyWeightCounts | src/blockchecks/engine/adaptive_queue.py:248-258 | After a run the weight of a family has grown by 1 for each PASS of one of its strategies, up to the cap of 64 |
| QueueInterleaving.StepKeeps | src/blockchecks/engine/adaptive_runner.py:220-268 | A pop, mark or quarantine hit of any worker keeps waiting and finished keys apart, and finished keys and exclusions only grow |
| QueueInterleaving.QuarantineIsFinalForAll | src/blockchecks/engine/bridge_worker_pool.py:159-177 | In every interleaving, from the step that reports a domain on, no pop returns it and no fan-out enqueues it |
| QueueInterleaving.DoneIsFinal | src/blockchecks/engine/adaptive_queue.py:500-511 | In every interleaving a finished key never waits again and is never handed out again |
| QueueInterleaving.WaitsAgainExactly | src/blockchecks/engine/adaptive_queue.py:402-411 | A key that does not wait starts waiting in exactly the steps that revive it, and is eligible then |
| QueueInterleaving.EligibleMustComeOut | src/blockchecks/engine/adaptive_queue.py:437-485 | A key is bound to come out within as many pops as there are eligible keys, whatever order the pops choose, exactly if it is eligible |
| QueueInterleaving.ReturnNeedsPass | src/blockchecks/engine/adaptive_queue.py:518-535 | A key that waits again after it stopped was revived in between: by the PASS of a sibling that found it neither waiting nor finished, on a campaign domain outside the hard exclusions |
| QueueInterleaving.SecondHandoutNeedsPass | src/blockchecks/engine/adaptive_queue.py:402-411 | Between two hand-outs of one key a step revived it |
| QueueInterleaving.RepeatsExactlyWhenRevived | src/blockchecks/engine/adaptive_queue.py:402-535 | In every run, a key that was handed out was bound to be handed out again at some later time, if only pops were to follow, if and only if some later step revived it |
| QueueInterleaving.SiblingOutMayRepeat | src/blockchecks/engine/adaptive_queue.py:500-535 | From every state in which a sibling job is out and would revive the key, its PASS leads to a state from which pops must hand the key out |
| QueueInterleaving.SecondHandoutHappens | src/blockchecks/engine/adaptive_queue.py:402-411 | It does happen: a run of two workers in which one key is handed out twice, for any strategy and any two domains of a cluster |
| SecondHandout.PopUntil | src/blockchecks/engine/adaptive_queue.py:437-485 | On the queue itself: from any valid state, for any rolls and draws, an eligible key comes out after at most as many pops as there are eligible keys |
| SecondHandout.ExploreFor | src/blockchecks/engine/adaptive_queue.py:437-454 | With exploring on and more than one job waiting, some draws make the next pop give any allowed key |
| SecondHandout.HandsOutTwice | src/blockchecks/engine/adaptive_queue.py:402-535 | On the queue itself: two siblings out, one passes, and the next pop gives the other again, exploring or not |
| Quarantine.DomainQuarantine.Record | src/blockchecks/engine/domain_quarantine.py:124-184 | Updates counters and quarantine as the transition function says |
| Quarantine.DomainQuarantine.SeedFromRows | src/blockchecks/engine/domain_quarantine.py:73-99 | Seeds the domains row by row and reports the new ones in order |
| Quarantine.DomainQuarantine.SeedDnsResolveFromRows | src/blockchecks/engine/domain_quarantine.py:101-122 | Seeds the resolution counters row by row and reports the new ones in order |
| Quarantine.TraceDecides | src/blockchecks/engine/domain_quarantine.py:124-184 | A domain is quarantined exactly when some prefix of the results holds no counted PASS for it and at least `minAttempts` DPI FAILs or at least `dnsResolveMin` resolution FAILs |
| Quarantine.MixedTraceDecides | src/blockchecks/engine/domain_quarantine.py:73-184 | Over any mix of results and rows of earlier sessions a domain is quarantined exactly when at some time nothing told of a PASS and the DPI attempts or the resolution FAILs were at their threshold, where a row raises the counters to what it reports |
| Quarantine.ProbesOnly | src/blockchecks/engine/domain_quarantine.py:124-184 | Runs of results alone are runs of the whole state machine, so every law of it applies to them |
| Quarantine.ErasureKeepsVerdict | src/blockchecks/engine/domain_quarantine.py:124-184 | Infrastructure FAILs and other domains' results can be erased without changing a domain's counters or verdict |
| Quarantine.ReportedOnce | src/blockchecks/engine/domain_quarantine.py:73-184 | Over any mix of results and seed rows each quarantined domain is reported exactly once, and nothing else is |
| Quarantine.QuarantineIsFinal | src/blockchecks/engine/domain_quarantine.py:73-184 | A quarantined domain stays quarantined with the same record and is not reported again |
| Quarantine.PassedStaysImmune | src/blockchecks/engine/domain_quarantine.py:73-184 | A domain that passed first is never quarantined by later results or seeds |
| Quarantine.DisabledDoesNothing | src/blockchecks/engine/domain_quarantine.py:124-139 | When disabled nothing changes and nothing is reported |
| Quarantine.ConfigFromArgs | src/blockchecks/engine/domain_quarantine.py:36-47 | Each threshold is the number from 1 to 10000 nearest to the setting, or the default if there is none |
| BridgePool.DomainIsolationPool.ClaimDomain | src/blockchecks/engine/bridge_worker_pool.py:67-75 | Claims a domain exactly when it is free or isolation is off |
| BridgePool.DomainIsolationPool.ReleaseDomains | src/blockchecks/engine/bridge_worker_pool.py:77-81 | Releases the listed domains when isolation is on |
| BridgePool.ReleaseUndoesClaim | src/blockchecks/engine/bridge_worker_pool.py:67-81 | A release after a successful claim restores the active set |
| BridgePool.PadResults | src/blockchecks/engine/bridge_worker_pool.py:118-128 | Short result lists are filled up with stopped results, and the given ones stay in front |
| BridgePool.StepConserves | src/blockchecks/engine/bridge_worker_pool.py:243-292 | No step of any worker creates, loses or duplicates a job |
| BridgePool.RunConserves | src/blockchecks/engine/bridge_worker_pool.py:243-292 | In every state of every interleaving the jobs are queued, in one worker's hands, accounted, or lost to an exception |
| BridgePool.StepIsolates | src/blockchecks/engine/bridge_worker_pool.py:67-81 | Every step keeps claims distinct, disjoint, and exactly the active set beyond the initial exclusions |
| BridgePool.RunIsolates | src/blockchecks/engine/bridge_worker_pool.py:243-292 | In every state of every interleaving with isolation on, the domains collected or probed by all workers are distinct and, with the initial exclusions, are the active set |
| BridgePool.NoClaimLeaks | src/blockchecks/engine/bridge_worker_pool.py:92-137 | When all workers have returned or failed, the active set is the initial one |
| BridgePool.EveryJobAccountedOnce | src/blockchecks/engine/bridge_worker_pool.py:243-292 | Without stop and exceptions, when all workers have returned every job was accounted exactly once |
| BridgePool.CarriedWereAllowed | src/blockchecks/engine/bridge_worker_pool.py:278-292 | In every interleaving each job that a worker holds, collects or probes was taken by it at a step at which the domain of the job was not excluded |
| BridgePool.ExcludedNeverProbed | src/blockchecks/engine/bridge_worker_pool.py:281-284 | A job on a domain excluded from the start is never in a worker's hands, so never in a batch |
| BridgePool.EntriesAreEarned | src/blockchecks/engine/bridge_worker_pool.py:92-137 | Every ledger entry is the n-th job of some worker's batch with the n-th result of the backend's answer to it, or stopped if there was none, or a job skipped at a step at which its domain was excluded |
| BridgePool.EveryJobProbedOnce | src/blockchecks/engine/bridge_worker_pool.py:243-292 | Without stop, exceptions and new exclusions, and with no job on an excluded domain: when all workers have returned every job was accounted exactly once, and every entry is of the first kind |
| BridgePool.StepSizes | src/blockchecks/engine/bridge_worker_pool.py:258-292 | A flush starts when the batch is full, after a claim failed, or at the end, and at no other step |
| BridgePool.RunSizes | src/blockchecks/engine/bridge_worker_pool.py:258-292 | No batch is empty or larger than the batch size |
| BridgePool.StepAttends | src/blockchecks/engine/bridge_worker_pool.py:258-292 | While the queue holds a job some worker will look at it again |
| BridgePool.ResultsArePaired | src/blockchecks/engine/bridge_worker_pool.py:104-134 | Throughout a flush, under any interleaving, the jobs accounted so far stand in the ledger with their own results |
| BridgePool.ReleasedIsPaired | src/blockchecks/engine/bridge_worker_pool.py:104-137 | When a flush is released its i-th job stands in the ledger with the i-th result, or as stopped if there was none |
| CurlProbe.SequentialRepeats | src/blockchecks/checkers/curl_probe.py:777-821 | The verdict is the first success of the attempts that ran, else the last; without quick break success means some attempt succeeds; with it, that the first one does |
| CurlProbe.ParallelRepeats | src/blockchecks/checkers/curl_probe.py:779-800 | The same verdict over the order in which attempts complete |
| CurlProbe.OrderIsIrrelevant | src/blockchecks/checkers/curl_probe.py:779-800 | Whether some attempt succeeds does not depend on the order of completion |
| CurlProbe.ModesAgree | src/blockchecks/checkers/curl_probe.py:767-821 | Fast, stable and parallel mode agree on success for every order of completion |
| CurlProbe.FewAreLate | src/blockchecks/checkers/curl_probe.py:839-857 | In a greedy schedule on p threads, after i requests at most i - p*q threads are busy beyond q waves |
| CurlProbe.GreedyEndsInTime | src/blockchecks/checkers/curl_probe.py:839-857 | Every greedy schedule of at most p*q requests of length at most w ends by w*q |
| CurlProbe.CeilCovers | src/blockchecks/checkers/curl_probe.py:757-764 | The waves the budget counts cover all requests on the threads the pool really has |
| CurlProbe.RequestFits | src/blockchecks/checkers/curl_probe.py:741-800 | A request whose attempts each end within the probe timeout fits one wave, one attempt after the other or all at once |
| CurlProbe.BatchFitsBudget | src/blockchecks/checkers/curl_probe.py:741-764 | A greedy batch whose requests fit one wave ends half a second, and the slack asked for, before the wall budget |
| CurlProbe.BatchEndsInTime | src/blockchecks/checkers/curl_probe.py:741-857 | In both modes: if every attempt ends within the probe timeout, every greedy batch ends half a second, and the slack asked for, before the wall budget |
| CurlProbe.BudgetIsNeeded | src/blockchecks/checkers/curl_probe.py:741-857 | The budget is tight: for every number of requests and up to the most repeats, some greedy run whose attempts end within the probe timeout leaves nothing of the wall budget but half a second or the slack asked for |
| CurlProbe.WaveIsNeeded | src/blockchecks/checkers/curl_probe.py:741-800 | In both modes some request takes a whole wave |
| DnsWire.SkipDnsName | src/blockchecks/checkers/dns_secure.py:78-94 | The loop over at most 128 labels computes the name walk and never reads outside the buffer |
| DnsWire.ParseDnsResponse | src/blockchecks/checkers/dns_secure.py:97-118 | On any octets the loops end, read inside the buffer, and give the addresses of the reading function; each text found names four octets that stand in the buffer |
| DnsWire.SkipsName | src/blockchecks/checkers/dns_secure.py:78-94 | On the wire form of a name, ending in the root or in a pointer, the walk lands right behind it |
| DnsWire.ParsesWellFormed | src/blockchecks/checkers/dns_secure.py:97-118 | On the wire form of any well-formed message exactly the A addresses among the first 20 answers come out, in order: the i-th text, split at the dots and read as decimal numerals without leading zeros, is the data of the i-th such answer |
| DnsWire.DottedNames | src/blockchecks/checkers/dns_secure.py:114-116 | The text of an address names its four octets in order |
| DnsWire.BuildDnsQuery | src/blockchecks/checkers/dns_secure.py:64-75 | A query comes out exactly when every non-empty part has fewer than 256 octets, and it is the wire form of those parts |
| DnsWire.QueryIsMessage | src/blockchecks/checkers/dns_secure.py:64-75 | A built query is the wire form of a well-formed message with one question, for the name and type asked for, and no answer |
| DnsWire.PartsOfDotted | src/blockchecks/checkers/dns_secure.py:69-73 | Splitting a dotted name gives its labels back |
| DnsWire.PartsAre | src/blockchecks/checkers/dns_secure.py:69-73 | No part is empty or holds a dot |
| DnsWire.WalksOwnQuery | src/blockchecks/checkers/dns_secure.py:64-94 | The walk over a built query ends four octets before its end if and only if every label (of at most 63 or at least 192 octets) has at most 63 octets and there are at most 127; a label of 192 octets or more, which the builder accepts, reads as a pointer |
| DnsWire.TextDecides | src/blockchecks/checkers/dns_secure.py:64-94 | For a label of 64 octets the text decides: one is walked over right, another is not |
| FamilyGates.SortOrders | src/blockchecks/engine/family_needs.py:57-62 | Sorting by family keeps the strategies and orders them by family rank and label |
| Text.ContainsFinds | src/blockchecks/engine/family_needs.py:96-102 | The search finds a word exactly if it stands somewhere in the text |
| FamilyGates.FamilyNeedTracker.SkipStrategy | src/blockchecks/engine/family_needs.py:94-102 | Below `full` a strategy is left out exactly if its text mentions, anywhere, a word of a chain whose flag is 0 |
| FamilyGates.FamilyNeedTracker.FinishFamily | src/blockchecks/engine/family_needs.py:76-87 | The flags a finished family sets, family by family, and no others |
| FamilyGates.CollectFamily | src/blockchecks/engine/family_needs.py:160-173 | The members of the family, in order, that are neither resumed nor gated; every other one is resumed or gated |
| FamilyGates.RunWithFamilyGates | src/blockchecks/engine/family_needs.py:109-202 | The run ends; the tested strategies are a subsequence of the family order, none resumed; done = skipped + tested, passed = successes; below `full` both gates hold; `single` stops at its first PASS. The log of finished families tells which are tested: exactly those not resumed and not gated by the last result of a family of their chain; and each result is right: a test passed, or without tests a resumed member worked |
| FamilyGates.FlagsDecide | src/blockchecks/engine/family_needs.py:89-102 | What the flags let through is what the log leaves to be tested |
| FamilyGates.LogGrows | src/blockchecks/engine/family_needs.py:139-202 | Finishing a family extends the log and changes nothing about the families before |
| FamilyGates.SkippedFamilyReopensGate | src/blockchecks/engine/family_needs.py:76-102 | A fakedsplit PASS gates the fakeddisorder family, which, finished without a test, opens the gate again for later strategies of the chain |
| FamilyGates.FakedGateReopens | src/blockchecks/engine/family_needs.py:109-202 | Such a run, on the method: of three strategies the first and the third are tested |
| FamilyGates.GatesExtend | src/blockchecks/engine/family_needs.py:89-102 | Testing one more family keeps both gates: nothing that uses multisplit after its family passed, nothing of fake_hostfake once hostfake passed |
| FamilyGates.GatedIsExcused | src/blockchecks/engine/family_needs.py:89-102 | Whatever the gates leave out depends on a family that passed |
| FamilyGates.FullTestsTheRest | src/blockchecks/engine/family_needs.py:109-202 | At the level `full` exactly the strategies not resumed are tested |
| HostsFile.ParsePins | src/blockchecks/checkers/ip_pin.py:27-47 | Each domain gets what the last line naming it says; comments, short lines and lines without an address count for nothing |
| HostsFile.LinesAre | src/blockchecks/checkers/ip_pin.py:33 | How any text falls into lines, with every kind of line end; a last line without one counts |
| HostsFile.EntryTells | src/blockchecks/checkers/ip_pin.py:34-46 | What a line pins, by its words alone, whatever white space surrounds them |
| HostsFile.WordsAre | src/blockchecks/checkers/ip_pin.py:37 | How any line falls into words, at each stretch of white space |
| HostsFile.DumpPins | src/blockchecks/checkers/ip_pin.py:59-65 | The headers and one row per domain, sorted |
| HostsFile.SortedIsUnique | src/blockchecks/checkers/ip_pin.py:62-64 | There is one sorted order, so the text is determined by the pins |
| HostsFile.DumpThenParse | src/blockchecks/checkers/ip_pin.py:27-65 | Reading a written file gives the pins back if and only if each domain is a word pinned to an address |
| HostsFile.ParsedArePinnable | src/blockchecks/checkers/ip_pin.py:27-47 | Pins read from any text are of that kind, so files survive being rewritten |
| HostsFile.MergePins | src/blockchecks/checkers/ip_pin.py:82-88 | The current pins overlaid by the non-empty updates |
| HostsFile.ProviderStore.WriteHosts | src/blockchecks/data_block/store.py:325-357 | Afterwards the file reads as the old pins overlaid by the first address of each record, if and only if the records used are words with addresses; a missing file counts as empty |
| Prune.AgeConditionDecides | src/blockchecks/engine/gc.py:258-283 | The age condition is never NULL, whatever columns are, so a row is aged or kept |
| Prune.KeptMeansReferenced | src/blockchecks/engine/gc.py:258-283 | A strategy has a kept row before the deletion if and only if it has a row after it |
| Prune.OrphansAgree | src/blockchecks/engine/gc.py:307-321 | The strategies counted as orphans beforehand are those the later statement deletes |
| Prune.Database.PruneDbResults | src/blockchecks/engine/gc.py:324-388 | The statistics are those of the preview; the tables change only without dry run and lock, all at once or not at all |
| Prune.PreviewIsEffect | src/blockchecks/engine/gc.py:307-385 | The counts previewed are the rows removed if and only if the orphan statement does not fail, which it does when orphans are found while a result table is missing |
| Prune.PruneIsSafe | src/blockchecks/engine/gc.py:343-385 | No row that is not aged is removed or changed, and every strategy with a row left survives |
| Prune.PruneIsExact | src/blockchecks/engine/gc.py:343-385 | A prune that does not fail leaves exactly the rows that are not aged, unchanged, and with orphans exactly the strategies that still have a row; one that fails changes nothing |

## Left out

- QueueInterleaving.StepKeeps: steps are atomic; heap, serials and weights are covered by the queue class, not repeated per step.
- AdaptiveQueue.AdaptiveJobQueue.Pop: the rule of the highest recorded priority is stated with a catalog only; with weights loaded above the cap, or two strategies under one label, a recorded priority can be too high, and then only the bound is stated.
- AdaptiveRunner.RunBridgeWorker: a run without stop requests and without backend exceptions; the fan-out and single-job branches are proved unreachable for one worker, with several workers only the results of `QueueInterleaving` hold.
- AdaptiveRunner.PopIsolated: isolation is soft here, because `pop` falls back to an active domain when nothing else is eligible; strict isolation is proved for the fixed-queue workers only.
- BridgePool.EveryJobAccountedOnce: says nothing about fairness; workers that keep returning a job whose domain stays claimed may go on without end.
- DnsWire.WalksOwnQuery: labels of 64 to 191 octets are excluded, because where the walk lands then depends on their text, as `TextDecides` shows.
- DnsWire.BuildDnsQuery: starts from the ASCII form of the domain; IDNA conversion is not part of this model.
- CurlProbe.BatchFitsBudget: assumes that each request fits one wave; the second hop that googlevideo probes may follow is not part of this model.
- FamilyGates.RunWithFamilyGates: no stop event.
- Quarantine.DomainQuarantine.Record: keeps counts and verdicts; reason texts and timestamps are left out.
- Genetics.BoostRise: weights are real numbers, so rounding of floating point is left out.
- HostsFile.ParsePins: which tokens are addresses is a parameter, assumed to reject the empty token and tokens that start with `#`.
- Features read off strategy strings by regular expressions (blobs, traits, family, cluster of a domain, kind of a failure) are attributes of strategies, domains and events.
- Seeding weights from triage or provider history, and saving them.
- `pop_batch`, which the campaign driver does not use and which does not check hard exclusions.
- Campaign metrics, progress callbacks, and persisting quarantined domains to a denylist.
- Sockets, HTTP, subprocesses, namespaces, signals, logging and the SQLite engine; only the conditions of the prune statements are modelled.
- DNS verdicts (sinkholes, anycast, the resolver cache), command line, presets, configuration, exports and reports: their claims are easy.
