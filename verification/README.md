# Mielofon: a verified model

Mielofon measures tunnels between routers, replicates the measurements between
controllers and turns them into OSPF costs. This project models its protocol and data
structures in Dafny and proves what they are for. `dafny verify dfyconfig.toml` checks
everything.

## Modules

| part | files |
|---|---|
| Alternate marking (RFC 9341) from the nft rules to the joined loss | AgentMark, MarkerReads, NftChains, AlternateMarking, MarkingProof, MarkingBytes, EndToEnd, Reporting |
| Loss windows, regimes and loss-to-rate models | ControllerMark, Summaries, RateModels |
| Time-series store: ring, buckets, window, the store in place | Samples, Ring, RingTheorem, Buckets, LinkHistory, Tsdb, Window |
| Replication: samples and last-writer-wins records | Replica, Gossip, GossipNode, Echo, Kv |
| Quality classes, hysteresis, transit cost | Quality, Classifier, Views, Transit |
| Commands, leases, cost applies | Fence, Worker, Dispatch, Outcomes, Sessions, Reconnect, Session, Planning, Refresh, Agent |
| ECMP trace walk | Trace, TraceRows |
| Interface globs | Discover |

Classes with mutable fields (`Marker`, `Tsdb`, `Node`, `LwwStore`, `ClassifierState`, `Fence`,
`WorkerRegistry`, `Controller`, `Agent`) follow the objects of the source: their methods
are proved against functions on the old state, and the lemmas are about those functions
and about whole runs of them.

`MarkerReads`, `Summaries`, `TraceRows`, `Planning`, `Outcomes` and `Sessions` tell what a read,
a loss summary, a trace, a tick, the end of a command and the close of a connection do in
terms of their inputs alone, apart from the definitions the methods are proved against.

## Hypotheses

- End to end: call latency, packet delay and clock skew together stay below half a block;
  a table rebuild gives fresh set handles; unmarked packets have the colour bit clear. A
  block's counts are exact when the sender's flips to it, to the block before and to the
  block after succeeded. Failed flips of other blocks, failed reads, reloads at either
  end, drops and any interleaving are part of every run.
- Ring and sample replication: samples of the same link and second agree on any dimension
  both carry (`RingTheorem.AllAgree`, `Replica.Consistent`). `PairCommutesIffAgree` and
  `EchoesDieOutIffLocalsAgree` show that exactly this is needed. Convergence is stated for runs without
  pruning; boundedness and the watermark theorem hold with pruning.
- A bucket's `n` and `util` count each second once in runs no merge of which loses a probe
  (`LinkHistory.KeepsProbes`). The per-dimension aggregates need no hypothesis.
- Records: a key and time determine the record, for order independence only; one exchange
  makes two stores equal without it.
- Hysteresis: the newest-sample time of a link is positive and never goes back, which
  `WindowTimesAdvance` proves of every run of the store.
- Commands and applies: every registration is in order (`Dispatch.InOrder`), that is, comes
  with no command of the kind outstanding on the agent or, on the session it has, reports
  the link of each; and, for applies, an agent's links have distinct interfaces. Sessions
  may close, reconnect and be superseded, and links change. Leases need none of this.
  `OneEachIffInOrder`, `SettledIffInOrder` and `PatientIffInOrder` show that exactly this
  is needed. All: fail-stop streams, and replies that echo the link and token they were
  asked about. Tokens and command ids are never reused.
- Refresh: one refresh and one command per interface at a time.
- Times, costs and thresholds come from outside. Rates and percentages are reals; the
  square root of a loss ratio is a parameter s with s > 0 and s * s equal to it.

## Where the code and its documentation differ

- `window` documents the always-tier dimensions as those of the most recent sample
  (crates/controller/src/tsdb.rs:858-868); the code takes each from its own newest carrier
  (crates/controller/src/tsdb.rs:885-900), and the model follows the code.
- `Bucket.n` is documented as the number of raw samples folded in
  (crates/controller/src/tsdb.rs:281-282); the code counts probe reports only
  (crates/controller/src/tsdb.rs:310-346).
- docs/architecture.md:221-225 says a detour through a spoke always loses; that holds under
  the condition of `SpokeDetourLoses`, and `HubsWinIff` gives the exact reach.
- A passive proof is documented as skipping the throughput test's round
  (crates/controller/src/scheduler.rs:95-96); it also skips the link's cost apply of that
  tick (crates/controller/src/scheduler.rs:97-103), and `Session.TestAndCostLegs` keeps this.
- The gossip module calls samples idempotent because per-link timestamps are monotonic
  (crates/controller/src/gossip.rs:17-18); block samples arrive stamped in the past
  (crates/controller/src/tsdb.rs:460-461), the ring orders them, and resends are harmless exactly when samples of
  one second agree (`EchoesDieOutIffLocalsAgree`).
- Registering says a new session supersedes the first (crates/controller/src/session.rs:8-9);
  a command still out on the old one then frees, when it ends, the slot of its successor
  (crates/controller/src/session.rs:261-263). `Reconnect` gives the runs that follow.
- A refresh puts drifted costs back as they were wanted when it looked
  (crates/agent/src/agent.rs:131-161); a command in between is undone until the next one.

## Model

| member | source | states |
|---|---|---|
| AgentMark.Marker.Read | crates/agent/src/mark.rs:120-230 | One `read`: a failed listing or a missing set changes nothing; otherwise the baselines of the colour just read move and exactly the blocks of the listed interfaces are queued. |
| AgentMark.Marker.TakeBlocks | crates/agent/src/mark.rs:40-48 | Draining hands over an interface's blocks oldest first and empties its queue only. |
| AgentMark.AdvanceEntry | crates/agent/src/mark.rs:220-228 | After a read the four sets of its colour have the new baseline and the other four keep theirs. |
| AgentMark.BaselinesAreLatestReads | crates/agent/src/mark.rs:143-225 | Over any run of reads, failed ones included, a set's baseline is its latest successful read, with the block it was made for. |
| AgentMark.ReadPushesOwnBlock | crates/agent/src/mark.rs:166-218 | A read pushes each interface's own block once, whatever the other interfaces do. |
| AgentMark.BlockIsCounterDifference | crates/agent/src/mark.rs:145-218 | A block not flagged as reset is, in every direction and band, the counter difference between its own read and the read of block n-2, within one table generation. |
| MarkerReads.BlockTellsReads | crates/agent/src/mark.rs:120-218 | Told from the replies alone: a read queues a block for a listed interface exactly when the last successful read of the colour was for the block two before and had the interface in all four sets; the block is a reset, counting nothing, exactly when a handle changed, an element is gone or a counter fell; else it counts the packets and bytes between the two reads. |
| AgentMark.IntervalsAreDisjoint | crates/agent/src/mark.rs:145-218 | The read intervals of two non-reset blocks of one colour never overlap, so no counter tick lands in two of them. |
| AgentMark.LinkSpans | crates/agent/src/mark.rs:145-218 | Consecutive non-reset blocks of a colour: the later one starts at the read the earlier one ended with. |
| AgentMark.DeltasTelescope | crates/agent/src/mark.rs:145-218 | Chained non-reset blocks of one colour add up to the counter difference between the first baseline and the last read. |
| AgentMark.HistoryNumbers | crates/agent/src/mark.rs:166-218 | Every block ever queued carries the number of a read that was made. |
| AgentMark.QueuedOnceInOrder | crates/agent/src/mark.rs:120-230 | With increasing block numbers each (interface, n) is queued at most once, in block order, across failures, gaps and rebuilds. |
| AgentMark.QueueKeepsNewest | crates/agent/src/mark.rs:50-57 | The bounded queue is always the newest 64 blocks of everything ever queued. |
| NftChains.OneRuleFires | mielofon-agent/files/usr/share/nftables.d/table-post/mielofon.nft:46-76 | A chain in which one rule applies does that rule and nothing else, earlier and later rules missing the packet they see. |
| NftChains.MarkTicksOneElement | mielofon-agent/files/usr/share/nftables.d/table-post/mielofon.nft:41-58 | A packet leaving on a managed interface ticks exactly one tx element, that of the map's colour and its length band (up to 1000 bytes or above), and leaves with that colour; any other packet is untouched. |
| NftChains.CountTicksOneElement | mielofon-agent/files/usr/share/nftables.d/table-post/mielofon.nft:66-76 | An arriving packet ticks exactly one rx element, that of its own colour bit and band, and continues with the bit clear. |
| NftChains.CountingColourAFirstCountsTwice | mielofon-agent/files/usr/share/nftables.d/table-post/mielofon.nft:60-65 | The order the include warns against: counting colour A first counts an A packet as B too. |
| NftChains.AssertionTells | crates/agent/src/nft.rs:192-234 | After the script the map sends exactly the listed names of 1 to 15 ASCII letters, digits, underscores, hyphens and dots to the block's colour; each is in every set, at 0 where it was new; every other element and all handles are as they were. |
| NftChains.AssertionKeepsCounters | crates/agent/src/nft.rs:197-234 | The per-block script is idempotent, keeps every handle and counter it finds, adds every quotable interface to all sets, and leaves the same colour map after a rebuild. |
| MarkingProof.InitHolds | crates/agent/src/main.rs:141-145 | Fresh tables and a loop that has just computed its block satisfy the invariant. |
| MarkingProof.NextKeepsInv | crates/agent/src/main.rs:141-180 | Every step keeps it: time passing, send, deliver, drop, flip or failed flip, read or failed read, and firewall reload, at either router. |
| MarkingProof.RunKeepsInv | crates/agent/src/main.rs:141-180 | The invariant holds in every state of every run of the two routers. |
| MarkingProof.ArrivalIsOfOpenBlock | crates/agent/src/main.rs:141-159 | With delay, skew and call latency below half a block, a coloured packet arrives while the receiver's count of its own block is open. |
| MarkingProof.NothingArrivesAfterRead | crates/agent/src/main.rs:155-159 | When a receiver reads block n, no packet of block n is still under way. |
| EndToEnd.BlockIsSettled | crates/agent/src/main.rs:155-159 | Once the receiver has read block n, its packets are exactly the delivered ones plus the dropped ones. |
| EndToEnd.CleanSenderHasNoStrays | crates/agent/src/main.rs:147-154 | If the sender managed the interface and its table was whole from block n-1 to n+1, no unmarked packet fell into the receiver's count of block n. |
| EndToEnd.BothHalvesAreExact | crates/agent/src/mark.rs:120-230 | In every reachable state in which the sender's flips to n-1, n and n+1 succeeded, unflagged halves of block n are exact: tx is the packets of the block, rx those not dropped plus stray unmarked ones. |
| MarkingBytes.NextKeepsBytes | crates/agent/src/mark.rs:145-218 | Every step of the two routers keeps the sender's byte counters and queued bytes equal to the bytes of the packets they stand for. |
| MarkingBytes.BlockBytesAreExact | crates/agent/src/mark.rs:145-218 | In every run the bytes of an unflagged block are the summed lengths of that block's packets of both bands. |
| EndToEnd.JoinedIsTruthful | crates/controller/src/mark.rs:74-110 | A block joined from the two markers' reports is truthful: per length band its loss never exceeds the packets of the block really dropped, is exactly those minus strays within 32-bit counts, and exactly those when the sender's table was whole around the block; sent counts and bytes are those of the block's packets, its time is the block's start, and it is under test exactly when either end's read was. |
| Reporting.ReadQueues | crates/agent/src/mark.rs:166-218 | What a read puts on the tunnel's bounded queue is the block the router made, whatever the other interfaces. |
| Reporting.DrainHandsOver | crates/agent/src/mark.rs:40-48 | A probe takes the tunnel's whole queue, keeps what was taken before, and leaves other queues alone. |
| Reporting.MergeIsReported | crates/controller/src/tsdb.rs:120-144 | A same-second merge keeps the block counters a sample carries, because block samples of one second are the same block's. |
| Reporting.StepKeepsDesk | crates/controller/src/session.rs:341-353 | Every step of routers, probes and controller, lost replies, relayed samples, eviction and pruning included, leaves only reports of queued blocks in queue, transit and ring. |
| Reporting.RingIsReported | crates/controller/src/session.rs:341-353 | So every block sample a controller reads from a link's ring carries the counters of a block its marker queued. |
| Reporting.JoinedLossIsRealLoss | crates/controller/src/mark.rs:74-110 | In every history of two routers, their queues and the controller's rings, every joined block around which the sender's flips succeeded is truthful: its loss is the real loss of that block, its counts, bytes and time are the block's, and it is under test exactly when either end's read was. |
| EndToEnd.EveryCleanBlockIsJoined | crates/controller/src/mark.rs:74-110 | The join misses nothing: a block both ends reported has an entry exactly when neither end flagged it a reset. |
| Reporting.EveryHeldBlockIsJoined | crates/controller/src/mark.rs:74-110 | In every history, a block the controller holds from both ends is joined exactly when neither half is a reset. |
| ControllerMark.SortDedupKeepsFirsts | crates/controller/src/mark.rs:107-109 | Sorting and deduplicating keeps the first joined entry of every block number. |
| ControllerMark.JoinPairsHalves | crates/controller/src/mark.rs:74-110 | The join is sorted with one entry per block, and its entries are exactly: the peer's last sample of a block with the first own sample of that block it can be joined with. |
| ControllerMark.JoinTellsHalves | crates/controller/src/mark.rs:74-110 | Told counter by counter: an entry has its number, length, time, sent counts and bytes from the own half and its received counts from the peer's, neither half a reset, both of one length, under test if either is; the own half is the first that makes halves with the peer's last, and nothing else is joined. |
| ControllerMark.PeakRate | crates/controller/src/mark.rs:150-156 | The peak is the highest rate within the span, at the first block that reached it. |
| ControllerMark.SumTotals | crates/controller/src/mark.rs:187-193 | The accumulating loop computes the window's totals per band. |
| ControllerMark.Summarize | crates/controller/src/mark.rs:146-208 | The whole summary: peak rate, chosen loss window, its totals, the loss ratios over the packet floor and the regime; with a floor of zero the ratio of blocks that sent nothing is undefined. |
| ControllerMark.LossIsInTotals | crates/controller/src/mark.rs:37-57 | Totals show loss exactly when some block lost a packet. |
| ControllerMark.LossIsReportedUntilItAgesOut | crates/controller/src/mark.rs:158-199 | With the floor, and at least one packet, met over the recovery span, loss is reported, at most 100 %, and above 0 exactly while some lossy non-test block is within the span. |
| ControllerMark.FastDemotionSlowRecovery | crates/controller/src/mark.rs:158-199 | A lossy fast window meeting the floor is reported as exactly its own ratio; otherwise the recovery span is, if it meets the floor; otherwise no ratio is reported. |
| ControllerMark.SteadyLossIsSparse | crates/controller/src/mark.rs:216-235 | Equal loss in every block is classified sparse. |
| ControllerMark.LoneBurstIsBursty | crates/controller/src/mark.rs:216-235 | Loss confined to one block of several is classified bursty. |
| Summaries.SummaryTellsLoss | crates/controller/src/mark.rs:146-235 | Told from the blocks one by one: a block counts when untested and ended within the recovery span, or the fast window when that lost something and sent enough; totals and ratios are over just these; sparse exactly when more than half of the sending blocks lost something and none more than three times their mean; the other shapes by their rules. |
| Summaries.PeakTellsRate | crates/controller/src/mark.rs:148-156 | The peak rate is that of the first of the blocks that ended within the span and carried the most bits for their length. |
| Summaries.SparseIsSpread | crates/controller/src/mark.rs:216-235 | The shape of the losses is sparse exactly when they are spread over the blocks without a peak. |
| RateModels.MbmWindowIsLargest | crates/controller/src/mark.rs:258-261 | The window is the largest w with 3 w^2 p <= 1 (section 5.2 of RFC 8337). |
| RateModels.MbmCarriesAWindowATrip | crates/controller/src/mark.rs:252-264 | The model-based rate in Mbps carries exactly the bits of the largest window the loss allows, whole segments of mss bytes, in each round trip. |
| RateModels.MathisCarriesASegmentOverTheRoot | crates/controller/src/mark.rs:252-264 | The Mathis rate in Mbps carries exactly 1.22 segments over the root of the loss in each round trip. |
| RateModels.MathisIsTwiceMbm | crates/controller/src/mark.rs:240-264 | The Mathis rate is at least twice the model-based rate for every loss and round trip. |
| RateModels.RatesFallWithLossAndRtt | crates/controller/src/mark.rs:240-264 | Both rates never increase with loss or round-trip time. |
| RateModels.NoLossNoConstraint | crates/controller/src/mark.rs:246-251 | No rate is implied exactly when there is no loss or no round trip. |
| Samples.NoProbeIsMarkingOnly | crates/controller/src/tsdb.rs:185-197 | A sample is no probe exactly when it is a block's report or result and carries nothing measured besides, UDP jitter excepted. |
| Samples.MergeTells | crates/controller/src/tsdb.rs:116-144 | A same-second merge keeps the time; what the later sample measured wins, the rest stays; use and state take the larger. |
| Ring.OfferEffect | crates/controller/src/tsdb.rs:457-485 | An offer is exactly one of: refused (at or below the floor, exact resend, older than a full ring), merged into its second, or inserted with the oldest falling off a full ring and becoming the floor; the ring stays strictly sorted, bounded and above its floor. |
| Ring.PruneEffect | crates/controller/src/tsdb.rs:638-651 | Pruning keeps exactly the samples from the cut on and raises the floor over the rest. |
| RingTheorem.RingIsNewestSeconds | crates/controller/src/tsdb.rs:450-485 | After any offers of agreeing samples the ring is the cap's newest distinct seconds offered, strictly sorted, each holding the join of all samples offered for that second. |
| RingTheorem.RingDependsOnlyOnOffers | crates/controller/src/tsdb.rs:450-485 | Hence it depends only on which samples were offered, not on their order or repetition. |
| RingTheorem.PairCommutesIffAgree | crates/controller/src/tsdb.rs:120-144 | Two offers commute exactly when they agree on every dimension both carry (the later arrival wins a disagreement). |
| Buckets.FoldEffect | crates/controller/src/tsdb.rs:487-505 | Folding a sample changes only its own bucket, merging each dimension the counted version lacked; a bucket retention dropped starts over. |
| Buckets.ExpireEffect | crates/controller/src/tsdb.rs:652-661 | Bucket retention keeps exactly the buckets from the cut on, unchanged. |
| Buckets.AggMeaning | crates/controller/src/tsdb.rs:246-273 | A running aggregate is the count, sum and attained extremes of the merged values, with min <= sum/n <= max. |
| LinkHistory.HeldOrBelowFloor | crates/controller/src/tsdb.rs:395-402 | Over any run of ingests and prunes, a second a ring ever held is still there or at or below the floor. |
| LinkHistory.GoneForGood | crates/controller/src/tsdb.rs:395-402 | A second that left a ring never re-enters it: every later sample of it is refused. |
| LinkHistory.NewestNeverRecedes | crates/controller/src/tsdb.rs:457-485 | The newest second of a ring never recedes while the ring holds anything. |
| LinkHistory.KeptBucketIsExact | crates/controller/src/tsdb.rs:487-505 | In any run a bucket no prune has cut is the aggregate of exactly the values counted in it; its n is the probes counted. |
| LinkHistory.CountedAreHeld | crates/controller/src/tsdb.rs:310-346 | What was counted on a dimension, or as a probe, is exactly the seconds the ring ever held carrying it. |
| LinkHistory.CountedAreFirstHeld | crates/controller/src/tsdb.rs:310-346 | A second never regained is counted at the value the ring first held. |
| LinkHistory.CountedTwiceIffRegained | crates/controller/src/tsdb.rs:310-346 | A bucket counts more values than seconds exactly when the ring came to carry one of its seconds again after it had stopped carrying it. |
| LinkHistory.BucketCountsEachSecondOnce | crates/controller/src/tsdb.rs:296-346 | Every kept bucket, per dimension and for probe reports: n values were counted, their sum, attained extremes around the mean; n is at least the number of its seconds that ever carried the dimension and equals it (at most 60) exactly when none of them was regained. |
| LinkHistory.RegainNeedsLoss | crates/controller/src/tsdb.rs:457-485 | A second is only regained after a same-second merge of it stopped carrying the dimension: pruned and evicted seconds never are. |
| LinkHistory.TrackLostIff | crates/controller/src/tsdb.rs:189-197 | A merge never loses a dimension, and loses a probe exactly when neither side has a tested dimension and the new one brings a block or joined result. |
| LinkHistory.LossIsProbeMerge | crates/controller/src/tsdb.rs:457-485 | In any run every loss is such a merge. |
| LinkHistory.NothingIsRegained | crates/controller/src/tsdb.rs:189-197 | So dimensions are counted once in every run, and probe reports in every run without such a merge. |
| LinkHistory.DimensionlessProbeCountsTwice | crates/controller/src/tsdb.rs:189-197 | With one it fails: a failed probe, a block and a probe in one second count two probes. |
| Tsdb.Tsdb.constructor | crates/controller/src/tsdb.rs:423-437 | A new store is empty and numbers entries from 1. |
| Tsdb.Tsdb.Ingest | crates/controller/src/tsdb.rs:450-520 | In place: rings, buckets, delta source and numbering become the specified store; true exactly when the ring changed. |
| Tsdb.Tsdb.OfferInPlace | crates/controller/src/tsdb.rs:457-485 | The ring half of ingest, positioned by a scan, computes the specified offer. |
| Tsdb.Tsdb.FoldInPlace | crates/controller/src/tsdb.rs:487-505 | The bucket half of ingest, positioned by a scan, computes the specified fold. |
| Tsdb.Tsdb.MergeDelta | crates/controller/src/tsdb.rs:524-534 | A peer's delta is ingested sample by sample, in order. |
| Tsdb.Tsdb.TakeDelta | crates/controller/src/tsdb.rs:540-551 | Returns the specified delta after the watermark and the number of its last entry. |
| Tsdb.Tsdb.Prune | crates/controller/src/tsdb.rs:638-669 | Prunes every ring, every bucket list (dropping emptied ones) and the front of the delta source. |
| Tsdb.PopTakesOnlyOld | crates/controller/src/tsdb.rs:662-668 | Retention takes only entries older than the cut off the delta source, and stops at the first that is not. |
| Tsdb.DeltaIsTheRange | crates/controller/src/tsdb.rs:540-551 | A delta is exactly the kept entries numbered after the watermark up to its last, in order, all of them unless it is full, and moves the watermark whenever anything newer is kept. |
| Tsdb.LinksAreIndependent | crates/controller/src/tsdb.rs:450-511 | Each link of a store evolves as its own run of ingests and prunes. |
| Window.WindowOf | crates/controller/src/tsdb.rs:869-932 | The early-exit scans refine the plain reading: None exactly when no sample is within carry; each always-tier dimension, TCP and the UDP set are those of the newest carrier within their horizons; carried exactly when older than fresh. |
| Window.FindNewest | crates/controller/src/tsdb.rs:873-877 | The anchor is the newest sample within the carry horizon, if any. |
| Window.ScanAlways | crates/controller/src/tsdb.rs:885-900 | Each always-tier dimension is that of its own newest carrier within `always_fresh_secs`. |
| Window.ScanTcp | crates/controller/src/tsdb.rs:902-917 | TCP is the newest value within carry, flagged carried exactly when older than fresh. |
| Window.ScanUdp | crates/controller/src/tsdb.rs:918-929 | The three UDP values come from one sample, the newest carrying rate or loss within carry. |
| Window.WindowIsUnique | crates/controller/src/tsdb.rs:869-932 | The declarative window determines the view. |
| Window.WindowTimeIsNewest | crates/controller/src/tsdb.rs:873-883 | A window is stamped with the ring's newest second. |
| Replica.TakenKeepsLog | crates/controller/src/tsdb.rs:507-511 | An ingest appends at most one entry to the log, numbered in sequence, and the delta source stays a suffix of it. |
| Replica.MergeAddsFact | crates/controller/src/tsdb.rs:120-144 | Among agreeing samples, a merge that changes the stored sample states a fact nothing it dominates stated. |
| Replica.AcceptedOfferAddsFact | crates/controller/src/tsdb.rs:457-511 | Every accepted ingest logs a fact no earlier entry of the log stated. |
| Replica.LogIsBounded | crates/controller/src/tsdb.rs:507-511 | So a member never numbers more entries than there are facts. |
| Gossip.TakenPushReaches | crates/controller/src/gossip.rs:232-237 | A round's request carries every kept entry past the watermark up to its last, which is the newest unless it holds 2000. |
| Gossip.ApplyKeepsDelivery | crates/controller/src/gossip.rs:232-296 | Appends, prunes, pushes begun, delivered (late, repeated), acknowledged or failed all keep the delivery invariant. |
| Gossip.WatermarkMeansOffered | crates/controller/src/gossip.rs:266-296 | In every run each entry at or below a peer's watermark has been offered to that peer, unless retention dropped it first. |
| Gossip.RoundMakesProgress | crates/controller/src/gossip.rs:232-237 | A round that succeeds moves the watermark whenever anything newer is kept. |
| Replica.TakenAllMergesDelta | crates/controller/src/tsdb.rs:524-534 | The replication history adds nothing to the store: taking samples one by one is merging the delta. |
| Gossip.EchoesDieOut | crates/controller/src/gossip.rs:13-19 | When same-second local samples agree, no member of any run accepts more ingests than the local samples state facts, pruning and eviction included. |
| Gossip.CaughtUpMembersAgree | crates/controller/src/gossip.rs:232-296 | In any run without pruning whose local samples agree, two members caught up with each other hold equal rings, eviction by the ring cap included. |
| Gossip.MutualRings | crates/controller/src/tsdb.rs:450-485 | Two rings each of whose samples was offered to the other are equal, full or not. |
| Echo.ClashTurns | crates/controller/src/tsdb.rs:120-144 | The two merges of samples that disagree differ, and merging either into the other turns it into the other. |
| Echo.EchoTurns | crates/controller/src/gossip.rs:266-296 | Once both members hold such a merge, one exchange makes the peer accept and log both and owe them to the sender. |
| Echo.DisagreementEchoes | crates/controller/src/gossip.rs:232-296 | Two members that each append one sample of a second, disagreeing in one dimension, exceed every bound of accepted ingests in some run, with nothing else appended and nothing pruned. |
| Echo.EchoesDieOutIffLocalsAgree | crates/controller/src/gossip.rs:13-19 | With two members or more and each local sample appended at most once: accepted ingests are bounded over all runs exactly when local samples of one link and second agree. |
| GossipNode.Node.Append | crates/controller/src/tsdb.rs:442-444 | In place: a local sample is the append step of the cluster. |
| GossipNode.Node.Prune | crates/controller/src/tsdb.rs:638-669 | In place: retention is the retention step of the cluster. |
| GossipNode.Node.TakeFor | crates/controller/src/gossip.rs:232-237 | In place: the samples and last number are those of the specified request, and the watermark stays. |
| GossipNode.Node.BeginPush | crates/controller/src/gossip.rs:266-280 | In place, before the await: the begin step of the cluster with the specified request. |
| GossipNode.Node.EndPush | crates/controller/src/gossip.rs:281-296 | In place, after the await: an acknowledgement moves that peer's watermark to the request's last entry, a failure leaves it; either ends that round alone and is the cluster's step. |
| GossipNode.Node.Receive | crates/controller/src/gossip.rs:76-80 | In place: merging a received request is the delivery step of the cluster. |
| Kv.LwwStore.Put | crates/controller/src/kv.rs:21-28 | An equal or newer record replaces the one held; false exactly when it was older. |
| Kv.LwwStore.Merge | crates/controller/src/kv.rs:52-60 | Merges a peer's records one by one. |
| Kv.LwwStore.SetNode | crates/controller/src/kv.rs:66-83 | The directory entry by last-writer-wins; true exactly when the directory changed. |
| Kv.LwwStore.MergeNodes | crates/controller/src/kv.rs:111-128 | Merges a peer's directory one by one; changed exactly when some entry changed what the ones before it left. |
| Kv.All | crates/controller/src/kv.rs:38-41 | Lists exactly the entries of a store. |
| Kv.MergeIsJoin | crates/controller/src/kv.rs:52-60 | Merging a listing of a store, in any order, is the pointwise join of the stores. |
| Kv.JoinCommutes | crates/controller/src/kv.rs:52-60 | The join commutes exactly when a key and time determine the record. |
| Kv.JoinAssociates | crates/controller/src/kv.rs:52-60 | The join is associative, for all stores. |
| Kv.JoinIsIdempotent | crates/controller/src/kv.rs:52-60 | Merging the same store again changes nothing. |
| Kv.TimesNeverGoBack | crates/controller/src/kv.rs:21-28 | No key is lost and no key's time goes back, whatever is written. |
| Kv.StoreHoldsNewest | crates/controller/src/kv.rs:21-28 | A store built from writes holds a newest record of every key written. |
| Kv.StoreDependsOnlyOnWrites | crates/controller/src/kv.rs:52-60 | Stores that saw the same writes are equal, whatever the order and repetition. |
| Kv.ExpiryForgets | crates/controller/src/kv.rs:131-134 | An older record is taken back exactly when the newer one had expired. |
| Kv.Exchange | crates/controller/src/gossip.rs:76-92 | One acknowledged exchange without other writers leaves both members with the same join of their stores, directory included. |
| Quality.ScoreUpper | crates/controller/src/quality.rs:74-82 | The score is one past the last upper limit exceeded, at most 3. |
| Quality.ScoreLower | crates/controller/src/quality.rs:86-94 | The score is one past the last lower limit undercut, at most 3. |
| Quality.ClassifyWindow | crates/controller/src/quality.rs:39-69 | The loop over the scored dimensions computes the worst score's class; unset dimensions do not constrain. |
| Quality.WorstCrossedClassWins | crates/controller/src/quality.rs:39-104 | A view is good exactly when no set limit is crossed; a crossed limit demotes at least to the class after its own; the implied rate shares the TCP limits. |
| Quality.ClassIsAfterTheLastFailed | crates/controller/src/quality.rs:39-104 | Told from the limits alone: the class is the one after the last class any of whose set limits the view is beyond; rates fail low, all else high; passive loss and rate have no limit. |
| Quality.WorseClassCostsNoLess | crates/controller/src/quality.rs:25-32 | With costs ascending by class a worse class never costs less. |
| Quality.WorseScoresWorse | crates/controller/src/classifier.rs:156-169 | The worse of two values scores as the worse of their scores, for arbitrary thresholds. |
| Quality.PairIsTheWorseHalf | crates/controller/src/classifier.rs:175-193 | A symmetric pair is classified as the worse of its halves, hence the same from either end. |
| Quality.MergeNeverFlatters | crates/controller/src/classifier.rs:175-193 | No merge classifies a link better than its own view, and switched off it changes nothing. |
| Quality.MergeMeans | crates/controller/src/classifier.rs:171-193 | Directional takes the worse of both for round trip, loss and jitter and everything else from the own view; symmetric the worse of both for all but the passive rate; off nothing; state, time and use stay own in every mode. |
| Quality.DirectionalAddsPings | crates/controller/src/classifier.rs:171-193 | By default a pair is classified as the worse of its own view and the pings alone of the other half. |
| Quality.PairLinks | crates/controller/src/classifier.rs:131-153 | A link is paired exactly with the only link of the opposite direction, when it is itself the only one of its own. |
| Quality.ByDirection | crates/controller/src/classifier.rs:132-138 | The grouping loop lists the links of each direction in order. |
| Quality.PairsAreMutual | crates/controller/src/classifier.rs:131-153 | Pairing is mutual and joins opposite directions. |
| Classifier.ClassifierState.ClassifyOnce | crates/controller/src/classifier.rs:276-412 | One pass steps every owned link with a view, by the pairing in force, and leaves a live record that is newer than the view, or of its time holding the view with the class and cost now in force, unset exactly for a link never classified; all other links keep their state and record. |
| Classifier.ClassifierState.ClassifyLink | crates/controller/src/classifier.rs:323-410 | The loop body: holds, first classification, unchanged class, confirmation, change; and the record written with the class and cost in force. |
| Classifier.ClassifierState.HoldLast | crates/controller/src/classifier.rs:430-438 | A hold changes neither class, cost nor confirmation, only refreshes the record. |
| Classifier.HoldsAreForUseAndSilence | crates/controller/src/classifier.rs:323-343 | A link in use within the hold time, or with no current ping on either half, keeps its track; every other viewed link is classified from its own view, with its other half's merged in if it has one, at its own time. |
| Classifier.RunKeepsTrackInv | crates/controller/src/classifier.rs:353-394 | In any run the confirmation counts the distinct newest-sample times of the current streak. |
| Classifier.ClassChangesAfterItsStreak | crates/controller/src/classifier.rs:323-410 | The class changes exactly when a differing candidate has held for every classified pass of a streak that saw `hysteresis_passes` (at least one) distinct times; the first applies at once; holds neither count nor reset. |
| Classifier.WindowTimesAdvance | crates/controller/src/classifier.rs:383-386 | Those times are positive and never go back, in any run of the store. |
| Views.SilentLinkIsHeld | crates/controller/src/classifier.rs:323-343 | From samples to cost, under any pairing: a link not in use keeps its class and cost exactly when neither its ring nor, under pair costing, its paired half's has a ping within freshness, whatever else their windows carry. |
| Views.ViewTells | crates/controller/src/classifier.rs:217-229 | A view holds the window's time, state, use and each of its dimensions as they are, the passive loss where measured, the peak rate, and an implied rate exactly for measured loss and round trip above 0, as the rate model gives it. |
| Views.FoldKeepsPings | crates/controller/src/classifier.rs:220-229 | Folding the marking in leaves the pings of a view, so what holds a link is its window alone. |
| Views.PassiveLossBoundsTheClass | crates/controller/src/classifier.rs:220-229 | Loss that allows less than a class's TCP rate demotes the link below the class. |
| Views.MoreLossNeverHelps | crates/controller/src/classifier.rs:220-229 | All else measured alike, more passive loss never gives a better class, under either rate model. |
| Views.CleanMarkingKeepsTheClass | crates/controller/src/classifier.rs:220-229 | Marking without loss, or unmeasured, leaves the class the window gives. |
| Transit.SpokeDetourLoses | crates/controller/src/classifier.rs:416-424 | With every class cost below the offset, a path between two directly linked hubs that visits a non-hub costs strictly more than their link. |
| Transit.HubPathBeatsDetour | crates/controller/src/classifier.rs:416-424 | When k times the largest class cost is below the offset, every all-hub path of k links beats every path through a non-hub. |
| Transit.DetourCost | crates/controller/src/classifier.rs:416-424 | A path that leaves the hubs pays the saturated offset and both class costs. |
| Transit.HubsWinIff | crates/controller/src/classifier.rs:416-424 | With k+1 distinct hubs and a non-hub: simple all-hub paths of k links beat every simple detour, whatever the classes, exactly when k times the dearest class stays below the cheapest detour. |
| Transit.HubsPayTheOffset | crates/controller/src/config.rs:436-444 | A link pays the offset, saturated at 32 bits, exactly from a hub to a non-hub: listed to unlisted, or member to non-member when no hub is listed; any other costs its class. |
| Fence.Fence.Acquire | crates/controller/src/fence.rs:48-58 | Expired leases go; granted exactly when no live lease occupies either node, else refused with one that does. |
| Fence.Fence.Release | crates/controller/src/fence.rs:61-70 | Removes the lease exactly when the token matches. |
| Fence.GrantedIffNodesFree | crates/controller/src/fence.rs:48-58 | A lease is granted exactly when every unexpired lease leaves both nodes free. |
| Fence.AcquireKeepsDisjoint | crates/controller/src/fence.rs:48-58 | Acquiring keeps all leases node-disjoint. |
| Fence.OldTokenFreesNothing | crates/controller/src/fence.rs:61-70 | A release leaves every lease with another link or token alone. |
| Worker.WorkerRegistry.Register | crates/controller/src/worker.rs:106-149 | Registration clears the costs sent and back-offs, keeps slots and issue times of kept links, and reports a new link. |
| Worker.WorkerRegistry.Attach | crates/controller/src/worker.rs:219-236 | A new session takes a fresh generation and frees every slot, unless this connection already holds the current one. |
| Worker.WorkerRegistry.Detach | crates/controller/src/worker.rs:240-249 | Only the generation that is current evicts the agent. |
| Sessions.LateCloseIsIgnored | crates/controller/src/worker.rs:210-249 | In every run, once an agent registered on a new connection, the late close of any connection it had before changes nothing, however long after. |
| Sessions.CloseForgetsItsOwn | crates/controller/src/worker.rs:238-249 | A close forgets the agent exactly when the agent is reached on that connection. |
| Sessions.RegisterSessions | crates/controller/src/worker.rs:210-236 | Registering on a new connection gives a session never used before; on the current one it keeps the session; other agents keep theirs. |
| Worker.WorkerRegistry.Begin | crates/controller/src/worker.rs:261-267 | Claims the slot; true exactly when the agent is known and the slot was free. |
| Dispatch.TestLeases | crates/controller/src/scheduler.rs:104-123 | Planning a test keeps leases owned: the lease goes out with the command or is given back. |
| Dispatch.EndLeases | crates/controller/src/session.rs:289-401 | A reply or failure gives back the lease of its own test and leaves every other owned. |
| Dispatch.StepKeepsLeases | crates/controller/src/session.rs:128-309 | Every step keeps leases disjoint and owned, a registration that supersedes a session or follows its end included. |
| Dispatch.LeasesBelongToTests | crates/controller/src/scheduler.rs:104-123 | In every run, agents reconnecting and superseding sessions included, leases are pairwise node-disjoint, each belongs to an outstanding throughput command with its link and token, and a controller with none outstanding holds no lease. |
| Dispatch.LateAnswersFreeNoSuccessor | crates/controller/src/session.rs:289-297 | A late reply or failure leaves every lease with another token in place. |
| Outcomes.ReplyTells | crates/controller/src/session.rs:322-401 | A reply leaves exactly: the stream gone, its slot free, a test's own lease given back if still its own, a cost taken believed sent with no back-off, a cost refused forgotten and left alone for 30 s; all else as it was. |
| Outcomes.FailTells | crates/controller/src/session.rs:287-309 | So does a failure, whose command took nothing. |
| Outcomes.RegisterTells | crates/controller/src/session.rs:126-211 | A registration leaves exactly: the links reported, a fresh session or the one held, no back-off, slots and issue times of links still reported (no slot on a fresh session), and one apply of the known cost out for every reported link whose slot was free. |
| Outcomes.ExecuteTells | crates/agent/src/agent.rs:334-363 | Executing a command changes the wanted cost of its interface exactly for an apply answered well. |
| Dispatch.StepKeepsSlots | crates/controller/src/session.rs:241-309 | Every step keeps the slots of a kind of command, each outstanding one holding its own, but for a registration out of order for the kind. |
| Dispatch.StepKeepsCosts | crates/controller/src/session.rs:128-401 | Every step keeps costs sent, outstanding applies, desired costs and back-offs in agreement, but for a registration out of order for applies. |
| Dispatch.AppliedMeansDesired | crates/controller/src/worker.rs:348-366 | In every run whose registrations are in order for applies, when no apply is outstanding on a link, `applied_sent = c` implies the agent's desired cost is c. |
| Dispatch.NoRetryBeforeBackoff | crates/controller/src/worker.rs:337-345 | In every such run no apply is planned for a link within 30 s of its failure, unless the agent registered since. |
| Dispatch.OneCommandPerSlot | crates/controller/src/session.rs:241-250 | In every run whose registrations are in order for a kind, at most one command of the kind is outstanding on any agent's link, whatever sessions come and go. |
| Reconnect.OneEachIffInOrder | crates/controller/src/session.rs:128-179 | A registration is in order for a kind when no command of the kind is outstanding on the agent or, on the agent's own session, when it reports the link of each. Exactly after those does every continuation keep one command of the kind per link: after any other some run has two outstanding in one slot. |
| Reconnect.SettledIffInOrder | crates/controller/src/session.rs:128-208 | Exactly after a registration in order for applies does every continuation keep settled costs the desired ones: after any other some run ends with the controller believing a cost the agent does not want. |
| Reconnect.PatientIffInOrder | crates/controller/src/worker.rs:337-366 | And exactly after those does every continuation keep the back-off of a failed apply. |
| Session.PassiveProofMeansGood | crates/controller/src/scheduler.rs:42-52 | A passive proof never goes with a TCP or implied rate below the good class; it always means the classifier scores neither of them exactly when no class asks for a higher TCP rate than the good one. |
| Session.Controller.Dispatch | crates/controller/src/session.rs:241-268 | In place: refused without a session or while the slot is taken, else the slot is claimed and the stream opened. |
| Session.Controller.PlanTestLeg | crates/controller/src/scheduler.rs:104-123 | In place: lease, dispatch, stamp; or the lease given back. |
| Session.Controller.PlanOne | crates/controller/src/scheduler.rs:62-144 | In place, one link of a tick: always leg, throughput leg or passive proof (which skips the cost this tick), cost leg. |
| Session.Controller.PlanTick | crates/controller/src/scheduler.rs:54-145 | In place, the whole tick over the owned links. |
| Session.Controller.HandleReply | crates/controller/src/session.rs:322-401 | In place: the reply settles the lease or the cost, then frees the slot. |
| Session.Controller.OnFailure | crates/controller/src/session.rs:287-309 | In place: what the dispatch assumed is undone, then the slot freed. |
| Session.TickKeepsGood | crates/controller/src/scheduler.rs:54-145 | A whole tick keeps every invariant of the protocol. |
| Planning.TickTurn | crates/controller/src/scheduler.rs:54-145 | For every listed link and kind a tick sends exactly what is due: a ping or test never issued or issued at least the interval ago, with a session and a free slot; a test only when not proved passively and with both nodes free, under a fresh 120 s lease with its token; a cost only when it differs from the one believed sent and no back-off runs. A probe is dated now exactly when sent, or spared by a passive proof. |
| Planning.OtherTurns | crates/controller/src/scheduler.rs:54-145 | A tick leaves commands, slots, issue times, costs and running leases of links it does not list as they were. |
| Planning.ProbesAreSpaced | crates/controller/src/worker.rs:72-77 | In runs without a registration, two probes of one kind on a link are at least the interval apart. |
| Planning.ClassifiedCostGoesOut | crates/controller/src/scheduler.rs:125-144 | From classifier to agent: the tick after a pass sends exactly the cost in force, exactly when the agent is ready for it and its test was not spared in the same turn. |
| Agent.Agent.Probe | crates/agent/src/agent.rs:207-331 | A throughput command is always answered with its own link and token; only an always probe for an unknown interface goes unanswered; an always probe hands over the marker's queue of its interface; the reply is busy exactly when the link is or is unknown. |
| Agent.Agent.ApplyCost | crates/agent/src/agent.rs:334-363 | The desired cost changes exactly when the interface is known and BIRD took the cost; the answer says which. |
| Agent.Agent.ExecuteApply | crates/agent/src/agent.rs:334-363 | The agent's execution of an outstanding apply is the execution step of the protocol: answer and desired cost agree with the controller's side. |
| Agent.Agent.TakeCost | crates/agent/src/agent.rs:334-346 | In place, an apply up to BIRD's answer: BIRD has the cost exactly when the interface is known and BIRD took it. |
| Agent.Agent.NoteCost | crates/agent/src/agent.rs:347-356 | In place: the cost is noted as wanted. |
| Agent.Agent.BeginRefresh | crates/agent/src/agent.rs:109-147 | In place, the refresh under its lock: costs of vanished links are forgotten and the drifted ones listed with what they should be. |
| Agent.Agent.Reapply | crates/agent/src/agent.rs:148-161 | In place, one turn of its loop: the first listed cost is put back as listed. |
| Refresh.FineIffUndisturbed | crates/agent/src/agent.rs:109-162 | Commands and a refresh interleaved step by step: a cost due to end in place stays so after exactly the steps that are not a command taking another cost while the refresh waits to put the old one back, a look between a command's being taken and noted, a refused re-apply, or drift. |
| Refresh.EndsInPlaceIffFine | crates/agent/src/agent.rs:109-162 | Being due is exact: every undisturbed run that comes to rest leaves BIRD with the wanted cost if and only if the listed cost is the wanted one, or none is listed and BIRD has it. |
| Refresh.RefreshTruly | crates/agent/src/agent.rs:109-162 | A refresh that reads an interface truly, with no command of it under way and none of the disturbing steps meanwhile, leaves its wanted cost in place, whatever BIRD had drifted to. |
| Trace.AllNextHops | crates/controller/src/trace.rs:319-340 | The nested loops return the first next hop of every key, in order. |
| Trace.EveryNextHopCounts | crates/controller/src/trace.rs:319-340 | Deduplication loses no branch: every reported next hop leads where a kept one does. |
| Trace.PeerOnIsFirst | crates/controller/src/trace.rs:356-363 | An egress leads to the far end of the first link of the node with that interface, if any. |
| Trace.RowsTellTheWalk | crates/controller/src/trace.rs:232-304 | Every row is of a visited node at its distance and true of the mesh; every visited node has a row; a reached row exists exactly when some node arrives. |
| Trace.Expand | crates/controller/src/trace.rs:251-291 | Expanding hops: one row each, whether one arrives, and each unseen peer queued once at the next depth. |
| Trace.Visit | crates/controller/src/trace.rs:233-303 | One turn: cap row, no-answer row, dead-end row or the expansion. |
| Trace.PopKeepsWalk | crates/controller/src/trace.rs:232-304 | Taking a node off the list keeps the breadth-first invariant. |
| Trace.Walk | crates/controller/src/trace.rs:222-315 | Ends on every finite snapshot; visits every node within the cap once, nearest first, at its shortest distance; complete exactly when some node closer than 24 answers with dev; cap hit exactly when some node is at distance 24; rows as specified. |
| Trace.DistanceIsUnique | crates/controller/src/trace.rs:225-232 | A node has one distance. |
| TraceRows.NextIsReported | crates/controller/src/trace.rs:317-363 | A node leads to another exactly when some route it reported goes out of a named interface whose first link on that node goes there. |
| TraceRows.ArrivesIsReported | crates/controller/src/trace.rs:251-260 | A node arrives exactly when some route it reported is its own device. |
| TraceRows.WalkTellsAnswers | crates/controller/src/trace.rs:222-315 | The rows of each node within the cap, at its distance: cut, no answer, dead end when nothing is reported, or one row for every distinct kind, address and interface reported, arrived or towards the far end of the first link on its interface; no rows of other nodes. |
| Discover.GlobMatchDecides | crates/agent/src/discover.rs:89-99 | The recursive matcher accepts exactly when the name can be cut into one fitting part per pattern byte. |
| Discover.TokenMeans | crates/agent/src/discover.rs:104-111 | The token is m exactly when the pattern is plain text around one star, m is not empty and the name is prefix, m, suffix. |
| Discover.OneStarMatch | crates/agent/src/discover.rs:89-111 | A one-star pattern matches exactly the names of that shape. |
| Discover.TokenIffMatchWithRun | crates/agent/src/discover.rs:89-111 | So the two algorithms agree: a token exists exactly when the glob matches with a non-empty star. |
| Discover.IfaceToken | crates/agent/src/discover.rs:114-119 | The token under the first glob that matches, or none. |

## Left out

- Transport, framing, TLS, dialling, redb load and flush, HTTP, metrics, tracing spans, the frontend and configuration parsing: carriers and formatting.
- Foreign calls (nft, iperf3, bird, ubus, ICMP) and the parsing of their replies: the model starts from parsed values, and their outcomes are parameters.
- Races between separate lock acquisitions: each of register, dispatch with its stamp, ingest and exchange is one step.
- Rounding and NaN of the floating-point fields (but for the 0 / 0 of a zero packet floor, which the view takes as absent), wrap-around of 64-bit counters and of the 32-bit bucket counts (a bucket counts at most 60 seconds per dimension).
- The receiver's byte counters in the end-to-end theorem: a joined block takes its bytes from the sender.
- Packets duplicated, fragmented or merged by offloads.
- A restart of a controller: hydration from disk, and the numbering that starts over with it.
- Name folding of peers in `register`, `canonical_peer` and `resolve_peers`: links carry their final names.
- `fold_marking`: writing joined results back onto block samples and the running totals. The live record leaves out the loss shape and the passive loss per band, which nothing decides by.
- `query`, `links`, the bucket views and the live-record metrics on trace rows: plain reads.
- `select_links`, `derive_address` and the rest of discovery: parsing.
- The trace result cache and its time to live.
- The low-rate error log of the marker loop: only the order and timing of its flips and reads are modelled.
- The agent's utilisation, ping window and throughput gate: measured values and the under-test flag are parameters.
- Classifier.ClassifierState.ClassifyOnce: the list of links has no repeats, as the keys of the store's map have none.
- Trace.Walk: next hops are deduplicated by kind, address and interface as a tuple; the source joins them with slashes, which neither contains.
