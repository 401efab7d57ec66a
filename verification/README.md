# KubeBrain client: a verified model

A Dafny model of the parts of the KubeBrain Go client in which goroutines, shared state or arithmetic make correctness
hard to see: the partitioned range stream, the leader probe, the shared registry of leader records, the read/write
picker, and the sizes of the received messages. `dafny verify dfyconfig.toml` checks everything.

## The parts

- **Range stream** (`Streams`, `RangeStream`, `RangeRefinement`, `LimitedStream`, `CallerLoop`, `RangeTermination`,
  `RangeCancellation`, `SnapshotStore`, `PrefixEnd`). `concurrentRangeStream` is a system of small steps: the caller's loop with its token pool, the group
  context, a callback and a fetcher for each partition behind a one-slot channel, the goroutine that closes the output,
  and the consumer. A send on a closed channel or a second close would set `panicked`. What the server will do with each
  stream is fixed beforehand but arbitrary, so a theorem over all configurations and runs covers every behaviour.
  Receiving a message and pushing it are one step, since nothing else looks at the message in between.
- **Leader probe** (`LeaderProbe`, `ProbeOutcomes`). `checkLeader`: probes, waiter, timeout and the select, over
  unbuffered channels.
- **Registry** (`ClusterKey`, `Registry`, `RegistryRuns`, `LeaderCtrl`, `Leadership`, `Verdicts`,
  `HealthChecks`). The class `LeaderCtrl` updates the
  index and its records in place; each method equals a function on values, about which the results are proved.
  `Leadership` interleaves registrations with health checkers and first-time leader updates; `Verdicts` follows each
  leader back to the check that found it, and each check to its effect.
- **Picker** (`Picker`, `PickerSteps`, `PickerTickets`, `PickerDeadlock`, `PickerProgress`, `LeaderHistory`,
  `Tickets`). The class is one pick at a time; `PickerSteps`
  runs any number of picks at once with the read-write lock and the leader changing under way. `LeaderHistory` connects
  it with the registry: what a record's leader does there is what a picker's leader may do here.
- **Messages** (`Rpc`, `WireForm`, `MachineInts`, `Wrappers`, `ByteStrings`). `Size` of the received messages against their proto3 wire form
  (Protocol Buffers Encoding specification, sections "Base 128 Varints" and "Length-Delimited Records").

Each state machine has a `Label` for every step, `Enabled` for when it can happen and `Apply` for what it does; a run is
a sequence of states from the start, each following from the one before. Theorems are about all runs.

## What is assumed of the surroundings

- The server answers a range from a snapshot in key order (`SnapshotStore.IsSnapshotStore`); error-free responses carry
  the answer from its front, all of it before end of stream (`Streams.Honest`). Its header revision is not
  zero, so all partitions are read at one revision. Partition keys ascend. Streams are finite.
- Endpoint lists are non-empty, their endpoints distinct and comma-free, and a list that is registered is one of the
  clusters open at that moment or shares no endpoint with any of them. `Registry.RegistrationRightIff` shows that this
  last condition is exactly what is needed; `Registry.PanicsIff` holds without any. In `Leadership` and `Verdicts` all
  clusters of the process are the same or disjoint.
- A record's callback probes the endpoints that the record was created for (client/client.go:120-122). Addresses are not
  empty strings.
- The ready addresses of a picker are endpoints of the cluster whose record it found.
- A read lock asked for while a writer waits is not granted, as sync.RWMutex documents.
- Go's `int` is 64 bits wide.

## Where the code does less than its names promise

- `maxConcurrent` does not bound the callbacks that run at once, because a token returns when `Go` returns:
  `CallerLoop.ConcurrencyBoundIff`.
- A limit is copied into every partition request, so a limited concurrent stream can deliver more than the limit
  (`LimitedStream.LimitOneDeliversTwo`). It keeps the limit exactly when the range holds no more than that or one
  partition holds all of it: `RangeRefinement.LimitedConcurrentCoversSingle` for every run,
  `LimitedStream.LimitExceededIff` for whether some run exceeds it.
- A list that overlaps an open cluster is counted as that cluster or panics (`RegistryRuns.OverlappingClusters`).
- Picks can block each other for good, because a read that finds no reader updates the leader again under its own read
  lock: `PickerDeadlock.DeadlockFreeIff` says exactly for which pickers.
- After 2^63 reads the round-robin index can be negative: `Tickets.IndexGoesNegative` at one input,
  `Tickets.IndexInRangeIff` exactly when.

## Model

| member | source | states |
|---|---|---|
| `PrefixRange.PrefixEnd` | client/util.go:29-42 | the end is the prefix cut after its last byte below 0xff, with that byte incremented; without such a byte it is the one byte 0; the input slice is not modified |
| `PrefixRange.PrefixIffInterval` | client/util.go:29-42 | a key has the prefix if and only if it lies in the half-open interval from the prefix to its end, in byte order |
| `PrefixRange.EndIsLeastBound` | client/util.go:29-42 | no smaller bound lies above every key with the prefix |
| `PrefixRange.EndExistsIff` | client/util.go:39-41 | a prefix has an upper bound at all if and only if some byte is below 0xff |
| `SnapshotStore.PartitionsTileRange` | client/client_stream.go:120-127 | without a limit the half-open partitions of an ascending list ask for exactly the whole range, in order |
| `SnapshotStore.LimitedPartitionsCover` | client/client_stream.go:120-127 | with a limit they ask for the pairs of the single request before any others, for at most the limit each, and for nothing that is not there |
| `SnapshotStore.LimitKeptIff` | client/client_stream.go:121-129 | together they ask for no more than the limit if and only if the range holds no more or one partition holds all of it; then they ask for what the single request does |
| `Streams.FetchStreamRangeResp` | client/client_stream.go:159-177 | the fetcher forwards every message of the stream in order, with its range, as failed exactly when it has an error text, which it reports; then at most one receive error, which it reports too |
| `RangeRefinement.SingleRangeStream` | client/client_stream.go:64-88 | the single stream's channel in each of its cases; a failed listing is one failed response with that error; of the caller's request key and end are overwritten, and the revision only if it was zero |
| `RangeRefinement.PartitionRequests` | client/client_stream.go:120-129 | every partition gets its own copy of the request with its bounds; the copy asks at the caller's revision, or at the header's if the caller named none; the caller's request stays as it was |
| `RangeStream.StepOk` | client/client_stream.go:104-157 | every step of every goroutine keeps the protocol's invariant |
| `RangeStream.ChannelDiscipline` | client/client_stream.go:132-177 | no run sends on a closed channel or closes one twice; a channel holds at most one response; the output closes only after all callbacks have ended and the group is cancelled; what a partition delivers is an in-order prefix of its stream with at most its last response failed |
| `RangeStream.CancellationIsVisible` | client/client_stream.go:140-157 | while the group is waited for, it is cancelled only after the consumer was sent an error or cancelled itself |
| `RangeStream.NoSilentTruncation` | client/client_stream.go:104-157 | output closed, no cancellation and no failed response together imply that every partition was listed and run, that the server reported no error on its stream and ended it, and that every message was forwarded |
| `RangeStream.ListFailureIsReported` | client/client_stream.go:108-116 | when the partitions cannot be listed, the consumer is given exactly that error before the output closes |
| `RangeStream.FailureCancelsGroup` | client/client_stream.go:150-153 | a callback that ended with an error has cancelled the group, and the consumer can tell |
| `RangeStream.CancelledGroupWindsDown` | client/client_stream.go:143-150 | after the group is cancelled no partition sends more than the one response it had already decided to send |
| `RangeRefinement.NothingExtra` | client/client_stream.go:104-157 | in every run, with faults and cancellation anywhere, no pair is delivered that the partitions do not hold, nor more often than they hold it |
| `RangeRefinement.ConcurrentRefinesSingle` | client/client_stream.go:82-130 | without a limit, every interleaving that ends without a visible fault delivers the same multiset of pairs as a fault-free single stream at the same revision |
| `RangeRefinement.RequestedSnapshotIsDelivered` | client/client_stream.go:120-130 | a run without a fault delivers the range from the snapshot at the revision that the caller named, whatever the header says; only without one from the header's |
| `RangeRefinement.LimitedConcurrentCoversSingle` | client/client_stream.go:82-130 | with a limit every run without a fault delivers all pairs of the single stream and at most the limit times the number of partitions; it keeps the limit, and delivers what the single stream does, if and only if the range holds no more than the limit or one partition holds all of it |
| `LimitedStream.LimitExceededIff` | client/client_stream.go:121-130 | with error-free streams some run delivers more than the limit if and only if the range holds more and no partition holds all of it |
| `LimitedStream.LimitOneDeliversTwo` | client/client_stream.go:57-130 | two keys in two partitions, limit 1 and a maximum of two, which makes the stream concurrent: a run without a fault delivers both, the single stream asks for one |
| `RangeCancellation.CancelledRunCanWindDown` | client/client_stream.go:104-157 | from any state the caller can cancel so that the output still closes and drains and each partition sends at most the one response it was committed to |
| `RangeCancellation.CancelledLoopCanSkip` | client/util.go:73-83 | once the group is cancelled, the loop can skip every partition that it has not started, and return |
| `RangeCancellation.FetcherWaitsForItsSlot` | client/client_stream.go:159-177 | a fetcher waits for nothing but room in its one-slot channel |
| `CallerLoop.TokensConserved` | client/util.go:55-83 | tokens in the pool and held by `Go` add up to the maximum, so returning one never blocks |
| `CallerLoop.CallerMoves` | client/client_stream.go:118-137 | only the caller's own steps move it, and each brings it nearer to its return |
| `CallerLoop.CallerReturnsAlone` | client/client_stream.go:118-137 | from any reachable state the caller returns its channel by its own steps, without any step of the consumer |
| `CallerLoop.ConcurrencyBoundIff` | client/util.go:73-83 | the maximum bounds the running callbacks in every run if and only if there are no more partitions than that |
| `RangeTermination.EveryStepDrops` | client/client_stream.go:104-177 | every step leaves strictly less work, whoever takes it |
| `RangeTermination.RunsAreBounded` | client/client_stream.go:104-177 | no run is longer than the work at its start |
| `RangeTermination.NotStuck` | client/client_stream.go:104-177 | until the output is closed and drained, some step other than a cancellation is possible |
| `RangeTermination.EveryRunCanFinish` | client/client_stream.go:104-177 | every run, whatever has happened in it, can be carried on without a cancellation until the output is closed and drained |
| `RangeTermination.FaultFreeRunsDeliverTheRange` | client/client_stream.go:104-177 | with honest error-free streams and no cancellation, every maximal run hands the consumer exactly the range, then closes |
| `LeaderProbe.ProbeSoundness` | client/leader.go:51-87 | in every interleaving an address is returned only if it is a configured endpoint whose probe was healthy, at most one is accepted, and ErrNoLeader means timeout or all probes unhealthy; the wait group never goes negative |
| `LeaderProbe.VerdictIff` | client/leader.go:51-87 | if nothing timed out, a leader is returned if and only if some probe was healthy |
| `ProbeOutcomes.EveryVerdictIsPossible` | client/leader.go:51-87 | whatever the healths of the endpoints, any healthy one can be returned, and ErrNoLeader when there is none, by a run without a timeout that leaves no goroutine |
| `ProbeOutcomes.AnyOfferIsAccepted` | client/leader.go:60-80 | while the call selects, the address of any probe that offers one can be received and returned |
| `ProbeOutcomes.GoesOnWithoutTimeout` | client/leader.go:48-87 | once all health checks have ended, some step other than the timeout is possible until every goroutine is gone |
| `ProbeOutcomes.TimeoutReturns` | client/leader.go:51-87 | from any state in which the call selects, the timeout and its own steps alone make it return ErrNoLeader |
| `ProbeOutcomes.ProbeLeavesAlone` | client/leader.go:51-66 | once the context is done, a probe whose health check has ended leaves by its own steps alone |
| `LeaderProbe.RunsAreBounded` | client/leader.go:48-75 | every run ends within a number of steps fixed by the number of endpoints |
| `LeaderProbe.EveryoneLeaves` | client/leader.go:48-75 | a run that cannot go on has returned and left no probe or waiter behind, if health checks end once their context is done |
| `ClusterKey.CanonicalKey` | client/balancer/picker/leader_ctrl.go:188-193 | non-empty comma-free lists have the same key if and only if they are permutations of each other |
| `ClusterKey.KeyAndEndpoints` | client/balancer/picker/leader_ctrl.go:85-96 | the key of one endpoint is that endpoint; the key of two or more is never an endpoint |
| `ClusterKey.KeyOfTwo` | client/balancer/picker/leader_ctrl.go:188-193 | the key of "b" and "a" is "a,b" |
| `Registry.PanicsIff` | client/balancer/picker/leader_ctrl.go:82-99 | the exact condition under which a registration panics, for any list and any state |
| `Registry.PanicLeaves` | client/balancer/picker/leader_ctrl.go:82-96 | a panic leaves a cancelled record under the key and the endpoints before the first one taken, and everything else as it was |
| `Registry.UpdateRefinesCount` | client/balancer/picker/leader_ctrl.go:72-112 | one update of the index is one update of a plain map from clusters to counts, and does not panic |
| `Registry.RegistrationRightIff` | client/balancer/picker/leader_ctrl.go:82-102 | in any state that holds the open clusters, a registration is counted right if and only if its list is one of them or shares no endpoint with any |
| `Registry.RemovalRightIff` | client/balancer/picker/leader_ctrl.go:98-111 | an unregistration is counted right if and only if its list fits the open clusters or its key is unknown |
| `Registry.LeaderReadsBack` | client/balancer/picker/leader_ctrl.go:62-70 | read through getLeaderAddr (lines 114-124), a leader set under one name of an open cluster is read back under every name of that cluster, and what is read under any other key does not change |
| `RegistryRuns.RegistryIsACount` | client/balancer/picker/leader_ctrl.go:72-112 | after any run a cluster is found under its key and each endpoint if and only if its count is positive; all these names find one uncancelled record that carries the count |
| `RegistryRuns.IndexDomain` | client/balancer/picker/leader_ctrl.go:85-108 | the index holds the keys and endpoints of open clusters and nothing else |
| `RegistryRuns.IndexedAreUncancelled` | client/balancer/picker/leader_ctrl.go:104-111 | of all records ever made exactly the indexed ones are not cancelled |
| `RegistryRuns.OverlappingClusters` | client/balancer/picker/leader_ctrl.go:82-96 | {s1} registered after {s1, s2} is counted as another user of that cluster; {s2, s3} after {s1, s2} panics |
| `RegistryRuns.KeyIndependence` | client/balancer/picker/rw_separated.go:46-60 | whichever ready address of an open cluster a picker keeps as its key, it finds the cluster's record |
| `LeaderCtrl.LeaderCtrl.UpdateClusterAmount` | client/balancer/picker/leader_ctrl.go:72-112 | the in-place update of index and records, including a panic half-way, is the update on values |
| `LeaderCtrl.LeaderCtrl.AddNames` | client/balancer/picker/leader_ctrl.go:90-96 | the loop points endpoints at the record up to the first that is taken |
| `LeaderCtrl.LeaderCtrl.DeleteNames` | client/balancer/picker/leader_ctrl.go:105-108 | the loop deletes the key and all endpoints and nothing else |
| `LeaderCtrl.LeaderCtrl.GetLeaderRecord` | client/balancer/picker/leader_ctrl.go:39-47 | an unknown key yields a record that is in no index |
| `LeaderCtrl.LeaderCtrl.UpdateClusterLeader` | client/balancer/picker/leader_ctrl.go:62-70 | sets the leader of the one record under the key and changes no other record and no index entry |
| `Leadership.LeaderSticks` | client/balancer/picker/leader_ctrl.go:135-225 | under any interleaving a record's leader is "" or an endpoint of its cluster, and once set it never becomes "" again |
| `Verdicts.LeadersWereReturned` | client/balancer/picker/leader_ctrl.go:135-225 | in any run, every value a record's leader has was returned earlier by a leader check of its own cluster: at the registration that made it, by its health checker or by a first-time update |
| `Verdicts.LastWriteWins` | client/balancer/picker/leader_ctrl.go:135-225 | in any run, a record's leader is what the last of its writers wrote: its registration, its checker or a first-time update |
| `Verdicts.CheckerVerdictTakesEffect` | client/balancer/picker/leader_ctrl.go:167-182 | in any run, before a health checker sleeps again, the address it was told has led its record |
| `HealthChecks.RegisteredIsChecked` | client/balancer/picker/leader_ctrl.go:167-182 | in any run a health checker has stopped only if its record is cancelled, so the record of a registered cluster has one that runs |
| `HealthChecks.CheckerCanSetLeader` | client/balancer/picker/leader_ctrl.go:167-182 | from any state, the steps of a registered cluster's checker alone can make any of its endpoints the leader, and change nothing else |
| `HealthChecks.UpdateCanSetLeader` | client/balancer/picker/leader_ctrl.go:205-225 | from any state in which a registered cluster has no leader, the steps of one first-time update alone can make any of its endpoints the leader |
| `HealthChecks.RegistrationCanSetLeader` | client/balancer/picker/leader_ctrl.go:81-99 | a first registration can find any endpoint, or none, to be the leader, and every name of the cluster then says so |
| `HealthChecks.LastUserLeaves` | client/balancer/picker/leader_ctrl.go:102-111 | when the last user of a cluster leaves, its key is gone and its checker can stop |
| `Verdicts.UpdateVerdictTakesEffect` | client/balancer/picker/leader_ctrl.go:217-225 | in any run, when a first-time update that was told an address has ended, that address has led a record of its cluster since, or the cluster was not registered at some moment |
| `Verdicts.UpdateEndsForReason` | client/balancer/picker/leader_ctrl.go:205-225 | a first-time update ends only when its cluster has had a leader meanwhile, was not registered at some moment, or its own check failed |
| `Leadership.CheckLeaderKeepsPromise` | client/leader.go:76-87 | what `checkLeader` returns without error is one of the endpoints it was given |
| `Tickets.IndexInRangeIff` | client/balancer/picker/rw_separated.go:139-140 | exactly for which reads the round-robin index is in range; always for the first 2^63, where it is the ticket modulo the length |
| `Tickets.IndexGoesNegative` | client/balancer/picker/rw_separated.go:139-140 | with three readers the read of number 2^63, counted from zero, has index -2 |
| `Tickets.RoundRobinIsFair` | client/balancer/picker/rw_separated.go:139-140 | of k consecutive tickets each of l readers gets k/l, rounded down or up |
| `Picker.RWSeparatedRoundRobin.constructor` | client/balancer/picker/rw_separated.go:38-63 | the maps agree with the ready connections, the kept key is a ready address, and the record is the one under that key |
| `Picker.RWSeparatedRoundRobin.UpdateLeader` | client/balancer/picker/rw_separated.go:162-188 | afterwards the cached leader is the record's and the reader list is duplicate-free and exactly the other ready addresses, if it had to be rebuilt; otherwise nothing changed |
| `Picker.RWSeparatedRoundRobin.PickWriter` | client/balancer/picker/rw_separated.go:147-160 | a write gets the connection of the record's leader, or an error exactly if there is none |
| `Picker.RWSeparatedRoundRobin.PickReader` | client/balancer/picker/rw_separated.go:128-145 | a read takes the reader whose turn it is, counted by the reads before, and none of them is the leader; it panics exactly when the counter is negative and no multiple of the number of readers; without readers it goes where a write would and draws no ticket |
| `Picker.RWSeparatedRoundRobin.PickFor` | client/balancer/picker/rw_separated.go:80-124 | no ready connection is an error and changes nothing; a full method name that begins with /Read is a read, which picks in turn as above, and any other a write |
| `Picker.WhichMethodsRead` | api/v2rpc/rpc.pb.go:1673-2057 | of the methods of the v2 services exactly those of the Read service are reads |
| `PickerSteps.WriteSafety` | client/balancer/picker/rw_separated.go:147-195 | with any number of picks and leader changes at once, a finished write went to an address that was the record's leader during the call; it is an error only if nothing is ready or some leader during the call has no connection |
| `PickerSteps.ReadSafety` | client/balancer/picker/rw_separated.go:128-145 | a finished read went to a ready address, and with a second one ready not to an address that was the leader throughout the call; it is an error only if nothing is ready, or some leader during the call has no connection and at some moment there was no reader; it panics only after 2^63 tickets, although the list is indexed by a length read before |
| `PickerSteps.CacheAgreement` | client/balancer/picker/rw_separated.go:162-188 | in every state the cached leader and readers agree, and the lock keeps writers alone |
| `PickerSteps.ReadsAreFair` | client/balancer/picker/rw_separated.go:131-141 | between two rebuilds, whatever reads run at once, k consecutive tickets give each of l readers k/l picks, rounded down or up |
| `PickerTickets.NoTicketIsLost` | client/balancer/picker/rw_separated.go:131-141 | in any run every ticket drawn before the counter wraps has been served or is held by exactly one read, and no other ticket is |
| `PickerTickets.TurnIsTicket` | client/balancer/picker/rw_separated.go:139-140 | one pick at a time and many at once count alike: the read of number t picks by ticket t |
| `PickerTickets.ReadsShareTheLock` | client/balancer/picker/rw_separated.go:128-141 | any number of reads can be inside the read lock at the same time |
| `PickerDeadlock.DeadlockFreeIff` | client/balancer/picker/rw_separated.go:128-195 | picks can never get stuck if and only if nothing is ready, or the leader is known when the picker is made and two addresses are ready |
| `PickerProgress.RunsAreBounded` | client/balancer/picker/rw_separated.go:128-195 | a pick takes at most 18 steps, whatever the other picks and the leader do: a run is no longer than the changes of the leader and 19 for each pick |
| `PickerProgress.HaltedRunsFinish` | client/balancer/picker/rw_separated.go:128-195 | where picks cannot get stuck, a run in which no pick can take a step has finished them all |
| `PickerProgress.PicksCanFinishIff` | client/balancer/picker/rw_separated.go:128-195 | every run can be carried on, without a new pick or another leader, until all picks have finished, if and only if they cannot get stuck |
| `PickerProgress.NewPickCanFinish` | client/balancer/picker/rw_separated.go:80-195 | in any state a new read or write can begin and, where picks cannot get stuck, end with all others without a change of the leader |
| `PickerProgress.QuietWriteIsExact` | client/balancer/picker/rw_separated.go:147-195 | a write during which the leader does not change gets the leader's connection, or an error if there is none |
| `LeaderHistory.LeadersAreAllowed` | client/balancer/picker/leader_ctrl.go:135-225 | whatever a record's leader does in a run of registrations, checkers and updates from the moment a picker finds it, some run of the picker's model sees exactly those changes |
| `Rpc.VarintRoundTrip` | api/v2rpc/rpc.pb.go:2696-2698 | the varint encoding reads back as the value and its own length |
| `Rpc.SovIsVarintLength` | api/v2rpc/rpc.pb.go:2696-2698 | the closed form is the length of the byte-by-byte encoding |
| `Rpc.SovIsLeast` | api/v2rpc/rpc.pb.go:2696-2698 | it is the least number of seven-bit groups in which the value fits |
| `Rpc.SovRange` | api/v2rpc/rpc.pb.go:2696-2698 | a uint64 takes one to ten bytes |
| `WireForm.HeaderReadsBack` | api/v2rpc/rpc.pb.go:2188-2203 | a header is read back from the wire form that `Size` measures, with its retained unknown bytes |
| `WireForm.KeyValueReadsBack` | api/v2rpc/rpc.pb.go:2205-2226 | so are key, revision, value and retained bytes of a pair |
| `WireForm.RangeResponseReadsBack` | api/v2rpc/rpc.pb.go:2322-2345 | so are the nested header, the pairs in order and the flag |
| `WireForm.ListPartitionResponseReadsBack` | api/v2rpc/rpc.pb.go:2430-2453 | so are the nested header, the signed number and the keys in order |
| `WireForm.EventReadsBack` | api/v2rpc/rpc.pb.go:2455-2478 | so are type, nested pair, revision and timestamp |
| `WireForm.WatchResponseReadsBack` | api/v2rpc/rpc.pb.go:2510-2534 | so are the nested header, the events in order and the error text |
| `Rpc.KeyValue.Size` | api/v2rpc/rpc.pb.go:2205-2226 | the length of the message's wire form with its retained unknown bytes |
| `Rpc.RangeResponse.Size` | api/v2rpc/rpc.pb.go:2322-2345 | the same, with the nested header and the repeated pairs |
| `Rpc.ListPartitionResponse.Size` | api/v2rpc/rpc.pb.go:2430-2453 | the same, with the signed partition number widened to uint64 and the repeated keys |
| `Rpc.Event.Size` | api/v2rpc/rpc.pb.go:2455-2478 | the same, with the enum widened to uint64 and the nested pair |
| `Rpc.WatchResponse.Size` | api/v2rpc/rpc.pb.go:2510-2534 | the same, with the nested header and the repeated events |

## Left out

- Deadlock freedom of the picker is not claimed in general, only exactly where it holds; a goroutine that waits for the
  registry's lock is not modelled, since no path takes it while it holds another lock.
- Goroutine leaks of the range stream: a callback that stops on cancellation abandons its fetcher, which the code accepts.
- Negative limits: the RPC does not say what they mean; a limit is a natural number here.
- Range ends of {0}: their "from key" meaning is the server's.
- `singleflight` in `UpdateClusterLeader`: any number of first-time updates run at once here, which covers fewer.
- Overflow of a record's `amount` beyond 2^63 users: counts are unbounded here.
- What happens after a registration panics: the process is taken to end.
- Pickers built before their cluster is registered hold a detached record and never learn a leader.
- `sort.Strings` and `strings.Join` are functions on values (`ClusterKey.Sort`, `ClusterKey.Join`), not in-place code.
- Nil entries in repeated message fields, which cannot be marshalled; retained bytes that are not whole fields unknown to
  their message.
- The generated marshalling and unmarshalling code: `Rpc` and `WireForm` state the wire form that `Size` measures.
- `Size` of the messages that the client sends, and all getters, handlers and descriptors of the generated file.
- `Watch`: its fetch loop is that of the range stream with another message type.
- Dialing, TLS, the health RPC itself, endpoint parsing, logging, unary calls, options and the resolver groups.
