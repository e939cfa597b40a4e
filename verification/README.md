# Verified model of the MQTT load generator

A Dafny model of the parts of the load generator where a mistake would be hard to notice: the
goroutines of a publish run and of a subscribe run, the latency counters, the benchmark payload
and the rewriting of JSON lines. `dafny verify dfyconfig.toml` checks all of it.

## How it is modelled

**Concurrent runs** are state machines. A state holds the position of every goroutine and all
shared variables; an action is one atomic access, so an execution is any interleaving. Each
machine has an `Inv` that every step keeps, and the results are stated about every reachable
state, about every state in which the run has returned, or about how long a run can be.

- `ConnectClients` is `connectClients` with its error group, limit and teardown.
- `PublishClient` is one client: `sendMessages`, one `waitForResult` per message, the semaphore,
  the WaitGroup, the counters, both latency records and the disconnect. A waiter counts its
  result, releases its slot and calls Done, in that order.
- `PublishRun` puts these together with `RunPublish`, the sampler, both channels, the shared
  latency shards and a cancellation that can come at any moment. `PublishRunResults` has its
  results, `PublishRunHistory` ties them to what happened in the run: cancellations, dials,
  outcomes and measurements. `PublishRunEnds` says that it ends, `AfterCancellation` what a reported failure or
  a cancellation still lets through, `RunSamples` what its sampler reads. Where something can
  happen, `PublishRunReach` and `PublishDrive` build the run that shows it: `DialsToCome` for late
  connects, `SnapshotSkew` for snapshots that do not add up, `UnacknowledgedWindow` for messages
  beyond the window.
- `SubscribeRun` is `RunSubscribe` with any number of overlapping message callbacks, before and
  after the run has stopped. No order is assumed between message times. `SubscribeSamples` has
  what is sampled from it, `SubscribeHistory` ties it to the broker's answer and the messages.
- `ChunkInstall` is the lock-free `record` of the chunked counters.

**Latency counters.** `LatencyIndex` has the index arithmetic with its shifts, masks and leading
zeros; `LatencyBuckets` has the counter classes, which change their arrays in place, and merge
into a histogram; both are compared with `RecordedCounts`, which records one clamped value after
the other. `Percentile` connects merged counts to ranks in the sorted latencies.

**Counter scans.** `CounterScan` reads counters one by one while they grow, and has the sampler.

**Texts.** `BenchmarkPayload` has the printer of payloads and the scanner that reads the
timestamp back, with 64-bit integers as types of their own. `JsonText` decodes JSON (string
escapes by section 7 of RFC 8259, surrogate pairs by section 2.2 of RFC 2781), and
`EscapeUnprintable` and, in `BenchmarkJson`, the payloads are compared with it. `SubscribeLog` is the periodic log of a subscribe run.

## Contracts taken for granted

- Atomics, channels, mutex-protected library state: each operation is one step, all goroutines
  agree on the order of steps.
- `errgroup`: `Go` blocks while the limit is running, the first returned error cancels the
  group's context, `Wait` returns when nothing is running, with an error exactly if there was one.
- `semaphore.Weighted`: never more slots out than its capacity; an `Acquire` fails, and takes
  none, exactly if the context is cancelled before it has its slot.
- `sync.WaitGroup`: `Wait` returns once the count is zero. `WaitTimeout` ends, with any outcome.
- Dials, pacer waits and the answer to a subscribe request end, with any outcome.
- The histogram library: an array of 3328 counts indexed with the same layout, unclamped.
- `encoding/json`: its line is valid JSON, ends in a newline and has no other raw control
  character. `unicode.IsPrint` is a parameter, known only for ASCII. `strconv.AppendInt` writes
  plain decimal.
- Option ranges are those that validation enforces: at least one slot in the window and at least
  one concurrent connect. Count and number of clients are arbitrary.

## Where the code and what is said about it differ

- The layout comment speaks of 3328 counters; the 41 positions from 3287 on decode to more than
  one hour and are never hit (`LatencyIndex.ReachableExactly`). The clamped round trip holds on
  the others and only there (`LatencyIndex.RoundTripExactly`).
- The repository's README.md:352-353 says that padding fills a benchmark payload up to `--size` bytes. It does
  not: from 50 on the payload is 3 to 22 bytes shorter (`BenchmarkPayload.PayloadLength`).
- A snapshot taken while clients publish may show more acked than published
  (`SnapshotSkew.ShowsMoreAckedExactly`), by at most what was published meanwhile
  (`RunSamples.SnapshotSkewIsBounded`), and exactly as long as some client can still come to
  publish (`SnapshotSkew.MayBeInconsistentExactly`).
- internal/mqttload/connect.go:30 says that after a failed connect or a cancellation no new
  connects are started, and the comment at lines 41-43 that a queued one then finds the context
  cancelled. A goroutine that has looked at the context may still connect, and until a returned
  error has been reported to the group others may still look, and even be launched. Which clients
  can still be dialed is said for every moment by `DialsToCome.MayStillDialExactly`; when it can
  happen at all, after a reported failure, a returned error and a cancellation, by the three
  lemmas that follow it in the table. From the report or the cancellation on
  `AfterCancellation.FewDialsAfterStop` holds.
- `escapeUnprintable` alone would let raw control characters through on its fast path; it relies
  on what `encoding/json` writes, and `EscapeUnprintable.FastPathIsRightExactly` gives the exact
  condition.
- The repository's README.md:304 says that `--inflight` is how many publishes a client can have
  sent but not yet acknowledged. A publish that fails or times out gives its slot back without an
  acknowledgement, so a client with more messages than its window can exceed it
  (`UnacknowledgedWindow.ExceedsWindowExactly`), by no more than its failures and time-outs
  (`UnacknowledgedWindow.ExcessIsCounted`). At QoS 0 the broker acknowledges nothing, and the
  window only bounds what is not written yet.

## Model

| member | source | states |
|---|---|---|
| `LatencyIndex.CountsIndex` | internal/mqttload/latency_buckets.go:25-33 | every latency, negative and over an hour included, gets a position from 0 to 3286, so indexing the 3328 counters never fails |
| `LatencyIndex.LayoutTiles` | internal/mqttload/latency_buckets.go:25-45 | each value lies between the lowest value of its position and that of the next one, and at most 1/128 above the former, without any clamp |
| `LatencyIndex.CountsIndexTiles` | internal/mqttload/latency_buckets.go:25-45 | the same for every latency from 0 to one hour through the clamped index |
| `LatencyIndex.CountsIndexMonotone` | internal/mqttload/latency_buckets.go:25-33 | a longer latency never gets an earlier position |
| `LatencyIndex.ValueStrictlyMonotone` | internal/mqttload/latency_buckets.go:36-45 | later positions stand for strictly larger values |
| `LatencyIndex.LayoutRoundTrip` | internal/mqttload/latency_buckets.go:25-45 | the unclamped index undoes the decoder on every position, so merging by decoded value hits the same counter |
| `LatencyIndex.RoundTripExactly` | internal/mqttload/latency_buckets.go:25-45 | with the clamp the round trip holds if and only if the position is at most 3286 |
| `LatencyIndex.ReachableExactly` | internal/mqttload/latency_buckets.go:25-33 | some latency lands on a position if and only if it is at most 3286: the last 41 counters stay zero |
| `LatencyIndex.DecodedFitsInt64` | internal/mqttload/latency_buckets.go:36-45 | the shift in the decoder never leaves a signed 64-bit integer |
| `RecordedCounts.CountsConserved` | internal/mqttload/latency_buckets.go:54-56 | the counters always add up to the number of records |
| `RecordedCounts.CountsIgnoreOrder` | internal/mqttload/latency_buckets.go:54-104 | two sequences with the same multiset of latencies give the same counters, so order and sharding do not matter |
| `RecordedCounts.RecordEachAddsHits` | internal/mqttload/latency_buckets.go:59-68 | recording values directly in a histogram adds to each position exactly the number of values that land there |
| `RecordedCounts.RecordEachConcat` | internal/mqttload/latency_buckets.go:100-104 | merging one set of records after another equals recording them all in one go |
| `RecordedCounts.RecordEachTotal` | internal/mqttload/latency_buckets.go:59-68 | the histogram's total grows by exactly the number of values |
| `LatencyBuckets.Histogram.RecordValues` | internal/mqttload/latency_buckets.go:11-15 | assumed contract of the library histogram: n more at one position, total n more, or an error and no change |
| `LatencyBuckets.DenseBuckets.Record` | internal/mqttload/latency_buckets.go:54-56 | the counters stay those of everything recorded so far, with this latency added |
| `LatencyBuckets.DenseBuckets.AddTo` | internal/mqttload/latency_buckets.go:59-68 | merging leaves the histogram as if each clamped latency had been recorded in it directly, with the total grown by their number |
| `LatencyBuckets.BucketSet.constructor` | internal/mqttload/latency_buckets.go:77-90 | 64, 128 or 256 shards: at least four per processor unless capped, and not twice as many as needed |
| `LatencyBuckets.BucketSet.RecordFor` | internal/mqttload/latency_buckets.go:94-96 | a client's latency goes to its own shard and to no other |
| `LatencyBuckets.BucketSet.AddTo` | internal/mqttload/latency_buckets.go:100-104 | merging all shards equals recording the latencies of all of them directly |
| `LatencyBuckets.ChunkedBuckets.Record` | internal/mqttload/latency_buckets.go:117-133 | with chunks allocated on first use, every position still counts exactly the records that land on it |
| `LatencyBuckets.ChunkedBuckets.AddChunk` | internal/mqttload/latency_buckets.go:143-151 | one chunk merges exactly its 128 positions and leaves the others alone |
| `LatencyBuckets.ChunkedBuckets.AddTo` | internal/mqttload/latency_buckets.go:136-153 | merging sparse chunks gives the same histogram as the dense array: each clamped latency recorded directly |
| `Percentile.FirstReaching` | internal/mqttload/publish_report.go:144-158 | the position whose running total is the first to reach a rank |
| `Percentile.PercentileIsBucketOfRank` | internal/mqttload/publish_report.go:144-158 | for any spread of latencies over shards and any rank, the merged counts reach the rank exactly at the bucket of the clamped latency of that rank in sorted order |
| `ChunkInstall.StepKeepsInv` | internal/mqttload/latency_buckets.go:117-133 | every load, compare-and-swap, reload and add of any goroutine keeps: private chunks are private, whoever is about to add holds the installed chunk, counters equal completed records |
| `ChunkInstall.InstalledForever` | internal/mqttload/latency_buckets.go:121-130 | in every execution an installed chunk is never replaced |
| `ChunkInstall.NothingLost` | internal/mqttload/latency_buckets.go:117-133 | in every reachable state no nil chunk has been used, and each counter equals the number of completed records that land on it |
| `ChunkInstall.QuietCountsAreRecorded` | internal/mqttload/latency_buckets.go:117-133 | when no record is in progress, the counters are those of recording, one after the other, every value that has been passed to record |
| `ChunkInstall.RecordIsWaitFree` | internal/mqttload/latency_buckets.go:117-133 | in every execution a begun record can always take its next step and completes with at most its fourth, whatever other goroutines do |
| `PublishClient.StepKeepsInv` | internal/mqttload/publish.go:152-204 | every step of the sender and of any waiter, in any order and with cancellation at any moment, keeps the window, WaitGroup, counter, latency and disconnect invariants |
| `PublishClient.WindowAndCounters` | internal/mqttload/publish.go:152-204 | held slots equal waiters not yet released plus the sender's own, at most InFlight; the WaitGroup counts exactly the waiters not yet done and the one registered but not started; published equals acked plus failed plus timed out plus those not yet counted |
| `PublishClient.NeverOverReleased` | internal/mqttload/publish.go:183-185 | a waiter that releases its slot or calls Done finds one to give back, so neither can panic |
| `PublishClient.UnacknowledgedIsBounded` | internal/mqttload/publish.go:139-143 | above QoS 0, messages sent and not acknowledged are at most InFlight plus the timed-out and failed ones; at QoS 0, where none is acknowledged, plus all counted ones; and at most InFlight if Count is |
| `PublishClient.DrainedMeansDone` | internal/mqttload/publish.go:119-126 | after the wait, hence at the disconnect, no waiter is left, every message is counted, an unstopped client has published Count messages, and its latencies are exactly its acks above QoS 0 |
| `PublishClient.ClientCanMove` | internal/mqttload/publish.go:152-204 | no deadlock: until the client has ended something can move, a full window implies a waiter that can go on |
| `PublishClient.CancelledSenderCanStop` | internal/mqttload/publish.go:155-176 | a cancellation ends the wait for a slot and the pause between messages, and the sender goes on to wait for the last results |
| `PublishClient.RankDecreases` | internal/mqttload/publish.go:152-204 | every step decreases a measure of remaining messages and goroutine positions |
| `ConnectClients.StepKeepsInv` | internal/mqttload/connect.go:33-86 | every step of the caller and of any connecting goroutine keeps: slots, count and running number match the goroutines, the group has failed exactly if one reported an error |
| `ConnectClients.LimitedDials` | internal/mqttload/connect.go:34-39 | never more than connectConcurrency connects at once |
| `ConnectClients.OnlyClearedDial` | internal/mqttload/connect.go:40-53 | a client is dialed only by its own goroutine once its context check has passed; after a failure or cancellation, dials plus checks passed never grows for any client |
| `ConnectClients.AllOrNothing` | internal/mqttload/connect.go:65-86 | on return every goroutine has ended; success means no failure, every slot filled and counted, nothing disconnected; otherwise exactly the connected clients have been disconnected, once |
| `ConnectClients.GroupCanMove` | internal/mqttload/connect.go:33-76 | no deadlock while connecting, for any limit of at least one |
| `ConnectClients.RankDecreases` | internal/mqttload/connect.go:33-86 | every step of connecting or tearing down decreases a measure |
| `PublishRun.StepKeepsInv` | internal/mqttload/publish.go:43-89 | every step of any goroutine of a whole run keeps the invariant that ties RunPublish's position to connecting, clients, channels, sampler, latency shards and result |
| `PublishRunResults.NeverDisconnectedEarly` | internal/mqttload/publish.go:119-126 | at every moment a client has been disconnected at most once and only if it connected; a teardown disconnect finds no client publishing, and after a client's own disconnect it has no waiter, no slot and no uncounted message |
| `PublishRunResults.EveryPathDisconnectsOnce` | internal/mqttload/publish.go:43-77 | whatever path RunPublish returns on, each client that connected has been disconnected exactly once, the others never, and both channels are closed exactly once |
| `PublishRunResults.ChannelsClosedAtMostOnce` | internal/mqttload/publish_progress.go:90-103 | connectFinished and done are never closed twice, and done not before connectFinished |
| `PublishRunResults.PublishesOnlyFullyConnected` | internal/mqttload/connect.go:27-39 | no client publishes before all have connected and are counted |
| `AfterCancellation.FewDialsAfterStop` | internal/mqttload/connect.go:30-53 | over the rest of any run after a failure has been reported or the context cancelled: a client whose goroutine has not passed its check by then is never dialed, one whose has at most once, all together at most connectConcurrency |
| `DialsToCome.MayStillDialExactly` | internal/mqttload/connect.go:34-53 | at every moment of every run, some continuation dials a client if and only if its goroutine has passed its check, or is about to check with nothing reported or cancelled, or is yet to be launched and those that have failed unreported do not fill the limit |
| `DialsToCome.DialsAfterFailureExactly` | internal/mqttload/connect.go:30-50 | a connect can begin after a failure has been reported if and only if there are at least two clients and at least two connects at once |
| `DialsToCome.DialsAfterErrorExactly` | internal/mqttload/connect.go:30-53 | a connect can begin after another one has returned an error, reported or not, under exactly the same condition |
| `DialsToCome.DialsAfterCancelExactly` | internal/mqttload/connect.go:30-50 | a connect can begin after the context has been cancelled if and only if there is a client and at least one connect at once |
| `AfterCancellation.AtMostOneMoreMessage` | internal/mqttload/publish.go:99-102 | after a cancellation a client hands over exactly what it has a slot for already, so at most one more message, and one that has not started none |
| `PublishRunResults.EveryClientWithinWindow` | internal/mqttload/publish.go:152-204 | at every moment of every run each client's held slots are those of its unreleased waiters plus its sender's, at most InFlight; its WaitGroup and counters match its waiters; all clients together hold at most Clients*InFlight |
| `UnacknowledgedWindow.ExcessIsCounted` | internal/mqttload/publish.go:183-204 | at every moment of every run a client has more unacknowledged messages than its window only by its failures and time-outs, at QoS 0 by what it has counted |
| `UnacknowledgedWindow.WindowExceeded` | internal/mqttload/publish.go:152-204 | for every option set with a client and Count above InFlight, and for a failure as for a time-out, a run in which one such result alone puts a client over its window |
| `UnacknowledgedWindow.ExceedsWindowExactly` | internal/mqttload/publish.go:139-204 | some run gives a client more unacknowledged messages than InFlight if and only if there is a client and Count exceeds InFlight, at any QoS |
| `PublishRunResults.LatenciesAheadOfAcks` | internal/mqttload/publish.go:192-203 | at every moment above QoS 0 the merged shared latency count exceeds the acks by exactly the waiters between recording and counting, and so does each client's own count when kept |
| `PublishRunResults.FinalVerdict` | internal/mqttload/publish.go:43-89 | published equals acked plus failed plus timed out; an error with the true totals exactly if some failed or timed out; uncancelled runs publish Clients*Count and return nil if and only if all were acked; a failed connect publishes nothing |
| `PublishRunHistory.ConnectsExactlyIf` | internal/mqttload/connect.go:65-75 | connectClients succeeds if and only if, when it decides, no failure has been reported and the context is not cancelled |
| `PublishRunHistory.FailedConnectIsNilExactlyIf` | internal/mqttload/publish.go:45-56 | after a failed connect RunPublish returns nil if the context is cancelled by then, and an error otherwise |
| `PublishRunHistory.CancelledWhileConnecting` | internal/mqttload/publish.go:49-53 | in every run cancelled before connectClients has returned, connecting gives up, no client ever publishes and the result is nil |
| `PublishRunHistory.CancelledBeforeFailing` | internal/mqttload/publish.go:49-53 | in every run whose connect fails and that is cancelled any time before it returns, the result is nil |
| `PublishRunHistory.ConnectedExactlyIfDialed` | internal/mqttload/connect.go:50-60 | at the end of a run the clients that connected, and have been disconnected once, are exactly those whose dial succeeded |
| `PublishRunHistory.OutcomesAreCounted` | internal/mqttload/publish.go:162-203 | once all clients have ended, published is the number of messages handed over, and acked, failed and timed out are the numbers of waits that ended so |
| `PublishRunHistory.LastSnapshotIsTrue` | internal/mqttload/publish.go:82-86 | every snapshot that starts after all clients have ended shows the four true totals, and the result of RunPublish is the one for them |
| `PublishRunHistory.ShardsHoldMeasurements` | internal/mqttload/publish_stats.go:49-50 | at every moment a shared latency array holds exactly the latencies measured by the clients whose number assigns them to it |
| `PublishRunHistory.OwnHoldsMeasurements` | internal/mqttload/publish.go:194-199 | once a client has ended, its own counters, if kept, hold exactly the latencies it has measured |
| `PublishRunResults.FinalLatencies` | internal/mqttload/publish_report.go:143-150 | at the end the merged shared counters hold the total of acks, at QoS 0 none, so latencies are reported exactly if there are any; per-client counters hold the same latencies per client |
| `PublishRunResults.ReportedPercentile` | internal/mqttload/publish_report.go:144-158 | at the end of any run, a rank read off the merged counters is the bucket of the latency of that rank among all latencies measured by all clients |
| `PublishRunResults.ReportedClientPercentile` | internal/mqttload/publish_report.go:253-268 | a rank read off a client's own counters is the bucket of the latency of that rank among the latencies it measured |
| `PublishRunEnds.RunCanMove` | internal/mqttload/publish.go:43-89 | in every state that satisfies the invariant and has not returned, something can move without a cancellation |
| `PublishRunEnds.RestMeansReturned` | internal/mqttload/publish.go:43-89 | a reachable state in which nothing but a late cancellation can happen has returned, and no goroutine is left behind |
| `PublishRunEnds.RankDecreases` | internal/mqttload/publish.go:43-89 | every step of every goroutine of a run decreases one measure |
| `PublishRunEnds.EveryRunEnds` | internal/mqttload/publish.go:43-89 | no run, however it is scheduled, has more steps than Clients*(20*Count+12)+10*Clients+14 |
| `CounterScan.ScanBetweenTotals` | internal/mqttload/counters.go:29-40 | each of the four scanned sums lies between the true totals at the start and at the end of the scan |
| `CounterScan.SumPublishCounters` | internal/mqttload/counters.go:29-40 | the loop returns exactly the four totals of what its separate loads saw |
| `CounterScan.ScanSkewIsBounded` | internal/mqttload/counters.go:32-37 | in any history of growing counters in which no client ever counts more than it has published, a scan shows at most as many results beyond its messages as were published while it ran |
| `CounterScan.SampleTotal` | internal/mqttload/publish_stats.go:63-80 | one value per reading before done, each the growth since the previous reading |
| `CounterScan.ReadingsExactly` | internal/mqttload/publish_stats.go:70-78 | the readings are exactly the totals at the ticks before the first done |
| `CounterScan.GrowthAddsUp` | internal/mqttload/publish_stats.go:63-80 | the values add up to the last reading |
| `RunSamples.HistoryGrows` | internal/mqttload/publish.go:163-203 | over any run every client's counters only grow |
| `RunSamples.ScanIsBetween` | internal/mqttload/publish_progress.go:106-120 | a reading of acks in a real run lies between the true acks when it starts and when it ends |
| `RunSamples.SnapshotSkewIsBounded` | internal/mqttload/publish_progress.go:106-120 | the same bound on the skew for every snapshot of every run, with nothing assumed about the counters |
| `PublishDrive.QuietForever` | internal/mqttload/publish.go:152-178 | once no client can come to publish, judged by the state alone, none ever can again and nothing more is counted as published |
| `SnapshotSkew.MayBeInconsistentExactly` | internal/mqttload/counters.go:32-37 | from any moment of any run on, some continuation has a snapshot with more results than published messages if and only if some client can still come to publish |
| `SnapshotSkew.ShowsMoreAckedExactly` | internal/mqttload/counters.go:32-37 | a snapshot with more acked than published messages can occur if and only if there is at least one client and one message to publish |
| `RunSamples.ReadingsNeverDecrease` | internal/mqttload/publish.go:63-67 | successive readings of a run's sampler never decrease and never exceed the final acks |
| `RunSamples.AckedPerInterval` | internal/mqttload/publish_stats.go:63-80 | no acks-per-interval value is negative and together they are at most the final acks |
| `RunSamples.FinalAcks` | internal/mqttload/publish.go:82-86 | once all clients have started, the true total the readings are compared with is the sum of the clients' acks |
| `BenchmarkPayload.Slice.Append` | internal/mqttload/payload.go:63-73 | appending within the capacity extends the contents and never reallocates |
| `BenchmarkPayload.GeneratePayload` | internal/mqttload/payload.go:45-73 | the bytes built are the frozen format, and the reserved capacity suffices for every time and size |
| `BenchmarkPayload.PayloadLength` | internal/mqttload/payload.go:45-73 | 27 bytes plus the digits plus size-50 if positive: from 50 on 3 to 22 bytes short of size, and equal to size exactly if size is 27 plus the digits |
| `BenchmarkPayload.TimestampRecognises` | internal/mqttload/subscribe_stats.go:46-78 | a timestamp is recognised with a value if and only if the payload is the prefix, 1 to 19 digits with that value at most 2^63-1, a comma or brace, and anything after |
| `BenchmarkPayload.BenchmarkTimestamp` | internal/mqttload/subscribe_stats.go:49-78 | the scanner accepts exactly those payloads and returns their value; its 64-bit accumulator never overflows |
| `BenchmarkPayload.PrinterAndScannerAgree` | internal/mqttload/subscribe_stats.go:49-78 | scanning any generated payload returns the printed time, for every size and every time from 1970 on, and rejects earlier ones |
| `BenchmarkJson.PayloadIsJson` | internal/mqttload/payload.go:35-73 | for every time and size a generated payload parses as the JSON object with that time as a number and a padding of size-50 letters x, or none |
| `BenchmarkJson.ClosedTimestamp` | internal/mqttload/subscribe_stats.go:66-73 | a timestamp directly followed by the closing brace is read back too, whatever follows |
| `SubscribeRun.StepKeepsInv` | internal/mqttload/subscribe.go:36-125 | every step of any callback, the sampler and RunSubscribe keeps: numbers are handed out once, closes and counts match the callbacks, latencies match the classified messages |
| `SubscribeRun.ChannelsClosedAtMostOnce` | internal/mqttload/subscribe.go:62-70 | whatever callbacks overlap, firstMessageArrived, countReached, runOver and done are each closed at most once |
| `SubscribeRun.CountReachedMeansReceived` | internal/mqttload/subscribe.go:68-70 | countReached is closed only with at least count messages received, and is closed once they are and no callback is on its way |
| `SubscribeRun.EveryMessageClassifiedOnce` | internal/mqttload/subscribe.go:111-125 | with benchmark on, received is the number of messages that hold no timestamp, plus those whose timestamp is after their arrival, plus the recorded ages of the others, plus callbacks not yet classified |
| `SubscribeRun.ClassifyExactly` | internal/mqttload/subscribe.go:111-125 | for every payload and arrival time: without timestamp if it holds none, negative if it holds a later one, recorded with its age otherwise, each if and only if |
| `SubscribeRun.BenchmarkMessageIsTimed` | internal/mqttload/subscribe.go:111-125 | a generated benchmark payload counts with its exact age, or as negative if it arrives before it was sent |
| `SubscribeRun.EveryBenchmarkMessageTimed` | internal/mqttload/subscribe.go:56-60 | if all messages come from benchmark publishers with good clocks, at rest there is exactly one latency per message |
| `SubscribeRun.FirstMessageIsNumberOne` | internal/mqttload/subscribe_progress.go:61-73 | the time of the first message is that of the message that got number 1 |
| `SubscribeHistory.LastMessageIsLastSet` | internal/mqttload/subscribe_progress.go:61-73 | the time of the last message is the arrival of the callback that set it last, and absent if and only if none has |
| `SubscribeHistory.CallbacksAreDeliveries` | internal/mqttload/subscribe.go:55-71 | there is one callback per delivered message, with its payload and arrival time, in order |
| `SubscribeHistory.ReceivedExactly` | internal/mqttload/subscribe_progress.go:61-73 | with no callback on its way, received is the number of deliveries and receivedBytes the size of their payloads |
| `SubscribeHistory.ShardsHoldAges` | internal/mqttload/subscribe.go:124 | at every moment a latency array holds exactly the ages of the classified messages whose number assigns them to it |
| `SubscribeHistory.SamplerFollowsRun` | internal/mqttload/subscribe.go:81-93 | the sampler samples only once the first message has arrived, and stops only once the run is over |
| `SubscribeRun.ReturnsCleanly` | internal/mqttload/subscribe.go:46-107 | on every return: one disconnect, done closed once, one end time, no sampler running; and unless the subscribe failed the run was cancelled, or stopped by the count with at least that many received |
| `SubscribeHistory.ReturnsErrorExactlyIf` | internal/mqttload/subscribe.go:55-75 | RunSubscribe returns an error if and only if the broker has refused the subscribe or not answered it, and counts as subscribed only after an acknowledgement |
| `SubscribeRun.NeverStuck` | internal/mqttload/subscribe.go:75-107 | until it returns RunSubscribe or its sampler can go on, except while it waits for a cancellation or for the count |
| `SubscribeRun.CallbackCanAdvance` | internal/mqttload/subscribe.go:55-71 | a callback that has begun never waits for another one or for the run |
| `SubscribeRun.SamplerCanMove` | internal/mqttload/subscribe.go:83-93 | a waiting sampler can start once the callback of the first message has ended, and any sampler can stop once the run is over |
| `SubscribeRun.CancelEndsTheWait` | internal/mqttload/subscribe.go:95-98 | a cancellation can come at any moment and ends the wait for the count |
| `SubscribeRun.StepsAreBounded` | internal/mqttload/subscribe.go:36-107 | RunSubscribe, its sampler and a cancellation take at most 13 steps in all whatever arrives, and a run at most 8 per message and 13 more |
| `SubscribeSamples.ReceivedGrows` | internal/mqttload/subscribe_progress.go:61-73 | over any run the count of received messages never goes back |
| `SubscribeSamples.ReceivedPerInterval` | internal/mqttload/subscribe.go:83-93 | no received-per-interval value of a run is negative, and together they are at most the messages received by the end |
| `SubscribeSamples.LoggedRatesAddUp` | internal/display/subscribe.go:73-142 | in the log of a real run the rates are not negative and add up to the total at the last tick, at most what is received by the end |
| `EscapeUnprintable.EscapeLine` | internal/display/dump.go:144-164 | returns a line below DEL unchanged and escapes any other character by character; on every line encoding/json writes both paths give the same |
| `EscapeUnprintable.FastPathIsRightExactly` | internal/display/dump.go:145-149 | the fast path gives what the slow one would if and only if the line has no character below 0x20 other than newlines |
| `EscapeUnprintable.InsertedEscapeDecodes` | internal/display/dump.go:166-176 | an inserted escape decodes back to its character, whatever follows it |
| `EscapeUnprintable.InsertedIsNotLow` | internal/display/dump.go:168-176 | an inserted escape never starts with that of a low surrogate |
| `EscapeUnprintable.LowEscapeKept` | internal/display/dump.go:153-161 | the escaped rest of a line starts with a low surrogate's escape if and only if the rest did, so a dangling high surrogate never gets a partner |
| `EscapeUnprintable.BodyKept` | internal/display/dump.go:140-164 | escaping a string leaves its decoded content unchanged and where it ends |
| `EscapeUnprintable.TokensKept` | internal/display/dump.go:140-164 | the tokens of a line, strings with decoded content, are unchanged |
| `EscapeUnprintable.OnlyPrintable` | internal/display/dump.go:136-138 | every character of the result is printable or a newline |
| `EscapeUnprintable.EscapedLineKeepsMeaning` | internal/display/dump.go:136-164 | for every valid JSON line of encoding/json the parsed value is unchanged, the result is one line of printable characters, and escaping it again changes nothing |
| `SubscribeLog.RunSubscribeLog` | internal/display/subscribe.go:73-142 | each tick logs the messages since the last reset and the growth since the previous tick, nothing if there are none, and resets exactly if there are some and the last came more than the reset time before the tick |
| `SubscribeLog.RatesAddUp` | internal/display/subscribe.go:73-142 | for totals that never decrease, the logged rates are not negative and add up to the last total, across any number of resets |
| `SubscribeLog.ResetNeedsNewMessage` | internal/display/subscribe.go:94-98 | between two resets at least one message arrived, and the second reset logged no more than arrived since the first |

## Left out

- Broker connections, TLS, certificates and the MQTT client library: a publish ends in one of three outcomes, a dial and a subscribe succeed or fail.
- Commands, flags, environment variables, logging, progress bars and the encoding of JSON reports.
- Durations and the distribution of pacer waits, and the random bytes of a payload without `--benchmark`.
- Report fields in floating point (averages, medians, rates, share of time waiting) and the rank a percentile is rounded to; the bucket found for a given rank is covered.
- Connect latency, client IDs and the start, connect and finish times of a publish run: plain fields nothing else depends on.
- Wall-clock ordering: times are arbitrary numbers, and nothing is claimed about first, last and finish times of a subscribe run relative to each other.
- `RunDump`, the dump printer's mutex and first error, and the plain format with `strconv.QuoteToASCII`, which is library code.
- Bytes: lines of JSON are sequences of code points, UTF-8 decoding and encoding is the library's.
- Wrap-around of the 64-bit counters, including the conversion of a count to a signed integer when merging: counts are unbounded, as 2^63 messages are out of reach.
- The ticks of both samplers as steps: a publish run's readings are loads at arbitrary instants of it, and the bounds on steps do not count them.
- LatencyBuckets.DenseBuckets.Record: one call at a time; concurrent adds to the same counter are single atomic steps and appear as such in PublishRun, SubscribeRun and ChunkInstall.
- LatencyBuckets.ChunkedBuckets.Record: one call at a time; the interleavings of its loads and the compare-and-swap are those of ChunkInstall.
- PublishClient.StepKeepsInv: recording in a client's chunked counters is one step here; its inner steps are those of ChunkInstall.
- PublishRunResults.FinalVerdict: the last snapshot is one step; that its separate loads see the same is PublishRunHistory.LastSnapshotIsTrue.
- SubscribeRun.BenchmarkMessageIsTimed: the difference between arrival and timestamp does not wrap around, which in 64 bits needs an arrival before 1970.
- SubscribeLog.RunSubscribeLog: the text of the lines, and the summary after the run is done.
