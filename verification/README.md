# AVStreamLens in Dafny

AVStreamLens is a passive monitor for audio and video over IP. Every packet changes per-stream
state; every five seconds a Window is closed: checks are made, a Health Score is computed, a
report is rendered, counters go back to zero and silent entries are pruned. This project models
that engine and proves what its numbers mean.

* **Counters.** 16-, 8- and 32-bit modular arithmetic stands in for unbounded positions.
  `SequenceLoss`, `StreamRuns`, `Avtp` and `Tcp` relate the wrapped form to runs of true integers,
  and `StreamLaws` says what the other counters of a stream count; `ReplayLoss`, `ReplayEntries`,
  `ReplaySources`, `ReplayRings` and `ReplayTraces` carry the results from the frames of a capture
  file to the losses its windows count, to the connection, AVTP and clock-domain entries, to the
  Dante sources, to the timing samples of each stream and to the smaller maps and counters.
* **Clocks and timing.** `ClockInference` (mode of a batch of timestamp steps), `Jitter` (the filter
  of section 6.4.1 of RFC 3550), `PaceLaws` (what it measures, in true times), `Timing` (the
  regularity verdict) and `Ptp` (the life cycle of a clock domain), over exact reals and over every
  run.
* **The window engine.** `Capture`, `Substates`, `Dante` and `Frames` give the state as a value and
  every packet and close step as a function of it; `CaptureState` is the mutable state whose methods
  are proved equal to those functions. `CloseLaws` says what a close keeps, forgets and shows,
  `RunLaws` what every reachable state keeps, `CheckLaws` when each alert of a close is raised,
  `HistoryLaws` what the checks remember of earlier closes, `SapLaws` what an announcement does to
  the streams, `ReportLaws` what a report shows of the streams, and `Replay` and `ReplayTimes` what
  offline replay, with its two clocks, guarantees about streams that fall silent.
  `CaptureState.ReplayFile` is the whole loop.
* **Scoring.** `Diagnostics`, `Sums`, `Scoring` and `ScoreLaws`: one penalty table, independent of
  map order, from which score and summary are both taken. `ScoreNumbers` gives the score in points
  and `SummaryBullets` what each bullet says.
* **Wire walkers.** `Mvrp`, `Dns`, `IgmpReports`, `Vlan`, `Sdp` and `SdpPrint`: each parser as the
  source's loops, an encoder for what it reads, and the round trip between the two; `SdpFaults` adds
  what an SDP parse makes of lines that are misplaced, repeated or malformed.

A Rust `HashMap` owns its entries, so maps hold entry values. A handler takes the entry it needs
out, or creates it, updates it in place with the methods of its class (`StreamStats`,
`TransmitterProfile`, `AvtpStreamStats`, `TcpStreamStats`, `PtpStats`), each proved against the
function on the value, and stores it back. The order in which a map yields its entries, and hence
which entry is evicted, is an arbitrary choice everywhere. `Instant` is a natural number of
microseconds.

## Findings

* Loss is an over-count after some reorderings, not after all. `last_seq` also moves backwards, so a
  lost packet that arrives late stays booked (`SequenceLoss.LatePacketStaysBooked`). What is booked
  is the number of packets that never arrived plus an excess, and it is exact if and only if the run
  is `Regular` (`SequenceLoss.LossCoversMissing`): each packet either lies ahead of everything
  received, with the highest position just before it, or leaves no forward gap and has a position
  received already or before the first. Runs without a backward step are regular, and so are some
  with one (`SequenceLoss.EarlierPacketCostsNothing`).
* `CONTEXT.md` says that the Health Summary lists every factor of the Health Score. The score is
  taken before the reset and the summary rebuilt after it, so they part exactly when what survives
  the close is healthy but something was forgotten on the way, both read off the state before the
  close (`CloseLaws.SummaryPartsFromScore`). A capture of two packets with the one between them lost
  is enough (`SummaryWitness.LossIsScoredButNotPrinted`).
* src/stats.rs:466-474 calls the diagnostics of a stream the one source of score and report, and
  `CONTEXT.md` has a Diagnostic shown in every report. The report goes through the streams after the
  reset, so it shows exactly the diagnostics whose condition outlives the window: what was scored for
  a stream is shown if and only if the stream survives the close and its window counted nothing a
  diagnostic is raised for (`ReportLaws.ReportShowsLasting`). The two packets above are scored for a
  loss that their report leaves out (`SummaryWitness.LossIsScoredButNotShown`), and no report shows
  the packets, losses or discontinuities of a stream that its window counted
  (`ReportLaws.ShownWindowsAreEmpty`). What it prints is the loss of the lifetime, which is the true
  one (`ReportLaws.ShownLossIsTrueLoss`).
* `clock_dropout_correlated` is set and cleared within one close, so the report never sees it
  (`CloseLaws.DropoutFlagNeverSurvives`).
* A comment at src/capture.rs:36-39 promises that a dead stream is shown at least once before it is
  pruned. In replay the timestamps of the file decide: all files on given timestamps keep the promise
  if and only if, whenever a window closes twenty seconds or more after a decoded packet, an earlier
  one closed more than ten seconds after it (`ReplayTimes.TimestampsDecide`). Decoded packets at most
  five whole seconds apart are enough (`Replay.DenseReplayShowsDeadFirst`), five is the most that can
  be allowed (`Replay.SixSecondsAreTooMany`), and a single gap of twenty seconds or more can break
  the promise at the first close (`Replay.SparseReplayPrunesUnseen`).
* `handle_tcp` counts an NDI packet for the lifetime of the stream but not for the window. In every
  replay the packets of a present stream are those its windows have counted if and only if it is not
  an NDI sender (`RunLaws.WindowsAddUp`); two frames are enough to see it fail
  (`RunLaws.NdiPacketGoesUncounted`). Losses and discontinuities always add up.
* The first label of a PTR record is read without regard to RDLENGTH (`Dns.LabelIgnoresLength`).

## Model

| member | source | states |
|---|---|---|
| SequenceLoss.StepCountsTrueGap | src/stats.rs:288-303 | one step of the wrapped counter books the true gap if and only if the gap is forward and fits, or is backward with an image that is not read as forward |
| SequenceLoss.LossIsSumOfForwardGaps | src/stats.rs:287-303 | over any run whose steps less one fit the signed range, the counter is the sum of the forward gaps, the reorder count is the number of backward steps and the stored number is the last true one reduced |
| SequenceLoss.PacketsPlusLossesSpanRun | src/stats.rs:287-303 | packets plus losses equal last minus first plus one plus what was stepped back |
| SequenceLoss.LossCoversMissing | src/stats.rs:287-303 | the counter is the number of packets that never arrived plus the excess; it is exact if and only if the run is regular, as every run without a backward step is |
| SequenceLoss.LatePacketStaysBooked | src/stats.rs:303 | a packet that arrives right after the one that jumped over it leaves nothing missing, yet one loss booked |
| SequenceLoss.EarlierPacketCostsNothing | src/stats.rs:293-303 | a packet from before the first is a reordering on which nothing is booked and nothing is missing |
| StreamRuns.LossOfRun | src/stats.rs:282-303 | the same four facts, the exact condition included, for the fields of a stream after any run of `update` calls |
| StreamRuns.JumpsAreBadSteps | src/stats.rs:308-328 | with any confirmed clock of at least one tick per packet, the discontinuity counter is the number of true timestamp steps outside half to one and a half times the expected one, across the 2^32 wrap, the last step stored is the last true one, and the clock stays as it is |
| StreamRuns.MajorityDeltaIsLearned | src/stats.rs:334-345 | eight positive steps of which five equal a table entry confirm that rate, 44.1 kHz for 441 and 882 ticks and 48 kHz for the others, with clock rate times packet time equal to the step |
| StreamRuns.UnknownModeTeachesNothing | src/stats.rs:415-455 | eight positive steps whose smallest most frequent one is not in the table leave rate, packet time and confirmation as they were, and collecting starts over |
| StreamRuns.SteadyStreamNeverJumps | src/stats.rs:308-345 | a stream that learned its step from a majority and then keeps stepping by it never counts a discontinuity |
| StreamRuns.ConfirmationAndBatchOverRuns | src/stats.rs:334-345 | fewer than eight samples remain after every `update`, and a confirmation is never undone |
| StreamRuns.JitterOfRun | src/stats.rs:364-370 | from the first packet of a stream on, with all transit differences at most B, jitter after n packets lies between 0 and B (1 - (15/16)^n) |
| StreamRuns.QuietRunIsNeverReported | src/stats.rs:512-514 | a stream whose transit differences never exceed 10 ms raises no HighJitter, after any number of packets |
| StreamRuns.QuietRunDecays | src/stats.rs:364-370 | n packets without transit difference scale the jitter by exactly (15/16)^n |
| PaceLaws.DifferencesAreTrue | src/stats.rs:364-370 | each difference the filter is given is the true time between two arrivals less the true timestamp step over the clock rate, in absolute value, at any rate and across the 2^32 wrap |
| PaceLaws.JitterIsWeightedLateness | src/stats.rs:364-370 | so the jitter of a stream is the sum of its true lateness, the k-th packet from the end weighing (15/16)^k / 16 |
| PaceLaws.PunctualRunIsNeverReported | src/stats.rs:512-514 | and a stream whose packets are never more than 10 ms off the pace of their timestamps raises no HighJitter, at any rate |
| PaceLaws.PacedRunHasBoundedJitter | src/stats.rs:364-370 | packets within e of a + k T, stamped b + k D with D ticks lasting T at the rate in force, have differences of at most 2e and leave jitter of at most 2e |
| PaceLaws.PerfectPaceHasNoJitter | src/stats.rs:364-370 | perfectly paced packets leave the jitter at 0, whatever the rate |
| PaceLaws.ConfirmedRateStays | src/stats.rs:334-345 | the rate of a confirmed stream is in force at every packet of any run |
| StreamLaws.GapsOfRun | src/stats.rs:356-362 | from a window's start on, `gap_events` is the number of waits of more than 50 ms while a packet time was known, and `max_iat_ms` the longest wait |
| StreamLaws.SourcesOfRun | src/stats.rs:374-378 | `ssrc_changes` is the number of packets whose source differs from that of the packet before |
| StreamLaws.MarksOfMediaRun | src/capture.rs:953-974 | over any frames of an AES67 or ST 2110 stream: mismarked frames, tagged frames of another priority than 6 with the first such priority, and RTP packets of another payload type than the announced one |
| StreamLaws.MarksOfDanteRun | src/capture.rs:1103-1138 | over any frames of a Dante stream: mismarked frames, the least time-to-live, and the packets, RTP or not |
| StreamLaws.ClosesDisturbNothing | src/capture.rs:720-731 | whatever windows are closed on the way, what a stream keeps beyond its window is what its packets alone would have made of it |
| StreamRuns.WindowsConserveTotals | src/stats.rs:283-326 | for any interleaving of RTP packets, other packets and closes, lifetime totals grow by the closed windows plus the current one |
| StreamRuns.FreshStreamConservesTotals | src/capture.rs:720-731 | so a stream's lifetime totals are the sum of its windows |
| Streams.StreamStats.Update | src/stats.rs:282-380 | `update`, field by field in the order of the source, equals the function the laws are about |
| Streams.StreamStats.UpdateNonRtp | src/stats.rs:395-403 | presence and arrival timing only |
| Streams.StreamStats.TryInferClockHz | src/stats.rs:415-455 | the sort, the scan and the table lookup apply the rate of the smallest most frequent step |
| ClockInference.ScanForMode | src/stats.rs:434-443 | the sort-and-run scan returns the smallest value of greatest multiplicity |
| ClockInference.MajorityIsMode | src/stats.rs:434-443 | a value taken by more than half of the samples is that mode |
| ClockInference.LookupIsExact | src/stats.rs:419-454 | a step is recognised if and only if it is in the table; a hit has clock rate times packet time over 1000 equal to the step, exactly, at 44.1 kHz for 441 and 882 ticks and at 48 kHz otherwise |
| Jitter.FilterIsWeightedSum | src/stats.rs:369 | the filter is a sum of the differences with geometric weights |
| Jitter.JitterBound | src/stats.rs:369 | from zero it stays within B (1 - (15/16)^n) |
| Timing.TransmitterProfile.RecordIat | src/stats.rs:41-49 | the bounded push equals the ring function |
| Timing.TransmitterProfile.RecordTtl | src/stats.rs:52-54 | the least TTL seen, never above the one recorded |
| Timing.RingHoldsLastPositives | src/stats.rs:41-49 | the ring holds the last at most 64 positive samples, in order |
| StreamRuns.RingOfStream | src/stats.rs:349-353 | across any packets and closes the ring of a fresh stream holds the last at most 64 positive times between its packets, RTP or not |
| ReplayRings.RingOfReplay | src/stats.rs:349-353 | and so it does for every present stream of any replay, from its own packets since it appeared, the last of which is when it was heard |
| Timing.VerdictBySums | src/stats.rs:66-77 | fewer than sixteen samples have no verdict; from then on it is read off their number n, sum a and sum of squares q: with a positive, metronomic if and only if n q - a a is below a hundredth of a a, and noisy if and only if it is above nine hundredths |
| Timing.VerdictIgnoresOrder | src/stats.rs:66-77 | the verdict is the same for every permutation of the samples |
| Timing.VerdictIgnoresScale | src/stats.rs:66-77 | and under every positive scaling |
| Timing.SteadySamplesAreMetronomic | src/stats.rs:74 | sixteen or more samples all within a tenth of the mean are metronomic |
| Timing.NoisyVerdictHasOutlier | src/stats.rs:75 | a noisy verdict needs a sample more than 30% away from the mean |
| Timing.MetronomicHasFewOutliers | src/stats.rs:74 | a metronomic verdict leaves fewer than a ninth of the samples 30% or more away from the mean |
| Avtp.AvtpStreamStats.UpdateSeq | src/stats.rs:788-799 | the 8-bit counter is the same tracker with modulus 256 |
| Avtp.LossOfFrames | src/stats.rs:788-799 | lost frames are the forward gaps of the true positions, that is the frames that never arrived plus the excess, exact if and only if the run is regular |
| Tcp.TcpStreamStats.HandleSegment | src/capture.rs:1190-1214 | the per-connection part of `handle_tcp`, with the marks it adds to the health record |
| Tcp.TcpStreamStats.UpdateQuality | src/stats.rs:878-888 | the four quality levels from the three counters |
| Tcp.TracksTrueMaximum | src/capture.rs:1199-1211 | `last_seq` is the true maximum reduced modulo 2^32, the retransmissions are exactly the non-SYN segments from the third on below the maximum before them, time and acknowledgement are those of the last segment, octets add up, and the quality is the one these counts deserve |
| Tcp.QualityNeverImproves | src/stats.rs:878-888 | over any run of segments the quality rank only rises |
| Ptp.PtpStats.Update | src/stats.rs:1278-1357 | one message, in place, equals the function the laws are about, with its event |
| Ptp.PtpStats.CheckTimeout | src/stats.rs:1365-1374 | a valid clock without a message for over five seconds is lost, and only that |
| Ptp.GrandmasterLifeCycle | src/stats.rs:1278-1374 | for every interleaving of messages and checks the events are a prefix of (Detected Changed* ClockLost)*, the clock is valid exactly while a grandmaster is remembered, and the change counter is the number of Changed events |
| Ptp.LossIsReportedExactly | src/stats.rs:1365-1374 | a check reports the loss if and only if the clock is up and the last message of the run is over five seconds old |
| Ptp.LastSeenIsLastMessage | src/stats.rs:1279-1280 | the stored time is that of the last message, and without messages no clock is valid |
| Ptp.DelayExtremesAreExact | src/stats.rs:1294-1354 | minimum and maximum are the exact extremes of the absolute delays since the last grandmaster change |
| Ptp.ChangeNamesPredecessor | src/stats.rs:1289-1305 | a Changed event names the grandmaster that was remembered, which differs from the new one |
| Ptp.RemembersLastMessages | src/stats.rs:1278-1357 | kind, source and grandmaster address, clock identity, quality, offset and delay are each those of the last message that carried it, and Sync was seen if and only if one came |
| Ptp.CensusOfSenders | src/stats.rs:1333-1343 | the census holds exactly the addresses that sent a PTPv1 Sync since the last reset, each with its last stratum |
| Diagnostics.DiagnosticsScoreShare | src/stats.rs:483-607 | what the diagnostics of a stream deduct in a category is its share, and it is counted exactly when the share is positive |
| Diagnostics.QuietJitterIsNotReported | src/stats.rs:512-514 | jitter of at most 10 ms raises no HighJitter and costs nothing |
| Diagnostics.DiagnosedExactly | src/stats.rs:475-554 | a stream shows each of the fifteen diagnostics, with the numbers it carries, if and only if its counters merit it |
| Diagnostics.DiagnosedInOrder | src/stats.rs:475-554 | and in the order of the report |
| Scoring.NetworkHealth.CollectPenalties | src/stats.rs:993-1165 | the tallies and caps, in whatever order the maps are walked, give the one penalty table |
| Scoring.NetworkHealth.CalculateScore | src/stats.rs:1168-1177 | 100 less the table's total, at least 0 |
| Scoring.NetworkHealth.BuildHealthSummary | src/stats.rs:1192-1197 | one bullet per penalty of the same table |
| Scoring.TallyStreams | src/stats.rs:1001-1035 | the category tallies equal sums and counts over the map, for every iteration order |
| Scoring.AscendingIsUnique | src/stats.rs:1119-1122 | sorting the domain keys makes their penalties independent of map order |
| ScoreLaws.PenaltiesDeduct | src/stats.rs:993-1165 | every penalty deducts a positive amount and the total is a closed sum over the maps |
| ScoreLaws.ScoreAgreesWithSummary | src/stats.rs:1168-1197 | on one set of inputs the score lies in [0, 100] and is 100 if and only if the summary is empty |
| ScoreLaws.PerfectScore | src/stats.rs:993-1177 | the score is 100 if and only if nothing in the inputs deserves a deduction |
| ScoreLaws.ScoreNeverRises | src/stats.rs:993-1177 | adding streams, connections, domains, reservations or ports never raises the score |
| ScoreNumbers.ScoreInPoints | src/stats.rs:993-1177 | the score is a hundred less the points, stated as numbers: losses in percent up to 10, jitter 2 above 10 ms and 5 above 20 ms, 3 a discontinuity up to 15, 10 a source change up to 30, 30 dead, 10 gaps, 5 a mismarked stream up to 20, and so on for every map and counter |
| ScoreNumbers.ConnectionStep | src/stats.rs:1069-1080 | above zero, turning a healthy connection Degrading, Critical or Terminated costs 5, 15 or 25 |
| ScoreNumbers.ClockStep | src/stats.rs:1119-1143 | a healthy domain costs 25 once its clock is lost, 15 with traffic but no clock, and 10 for each change up to three |
| ScoreNumbers.CounterStep | src/stats.rs:1082-1163 | each retransmission costs a half up to 10, each congestion mark 2 up to 20, each energy-saving port 15 up to 30 |
| ScoreNumbers.StreamStep | src/stats.rs:1010-1057 | replacing a faultless stream costs exactly what the new one adds |
| ScoreNumbers.WorseNeverScoresBetter | src/stats.rs:993-1177 | whatever is in view, the score does not rise when any of it gets worse: more losses, jitter, discontinuities or source changes, a connection of higher rank, a clock with more changes or worse state, more counted faults |
| SummaryBullets.SummaryTells | src/stats.rs:1192-1197 | a bullet is printed if and only if what it says is so, with the number of streams, entries or events it names |
| SummaryBullets.SummaryInOrder | src/stats.rs:993-1165 | the bullets come in a fixed order of kinds, those of the clocks by domain number |
| Dante.DanteState.RecordSource | src/capture.rs:226-233 | insertion into the bounded set, evicting some other source with its name and class |
| Dante.DanteState.RecordTxClass | src/capture.rs:238-243 | DVS and Via overwrite, Hardware only fills a gap |
| Dante.DanteState.Handle | src/capture.rs:1037-1087 | the three source-recording arms of `handle_dante` |
| Dante.DanteState.ResetWindow | src/capture.rs:185-197 | ConMon pruning and the unverified counts, whatever the order of the walk |
| Dante.SourcesStayBounded | src/capture.rs:138-153 | over every run and every choice of victim at most 4096 sources, names and classes only for tracked ones, and the newest source kept |
| Dante.ClassSurvivesStep | src/capture.rs:226-243 | a step takes a software class away if and only if it evicts the source |
| Dante.ClassSurvivesRun | src/capture.rs:238-243 | a tracked DVS or Via source never reverts to Hardware |
| Dante.UnverifiedCountsSilentCloses | src/capture.rs:185-213 | the stored count is the length of the trailing run of closes without a stream or ConMon entry, and the unverified sources are exactly those with three or more |
| ReplaySources.ReplayUnverified | src/capture.rs:185-213 | at any point of any replay a source is called unverified if and only if it is tracked and the last three closes or more found neither a surviving stream of it nor a fresh ConMon entry |
| ReplaySources.StreamingExactly | src/capture.rs:188-196 | an address counts as streaming if and only if one of the streams kept comes from there |
| ReplaySources.ReplayKeepsClass | src/capture.rs:238-243 | in any replay a DVS or Via source never reverts to Hardware while it is tracked |
| ReplayTraces.FollowerOfReplay | src/capture.rs:896-901 | in any replay the follower map holds the last PTPv1 Delay_Req of each address until a close finds it 15 s old |
| ReplayTraces.JoinOfReplay | src/capture.rs:1301-1314 | in any replay a join is remembered until its host leaves or a close finds it 300 s old |
| ReplayTraces.AdvertisedOfReplay | src/capture.rs:827-863 | in any replay an AVDECC entity is known as last advertised until it departs or a close finds its validity, at least 10 s, over by 10 s |
| ReplayTraces.ReservationOfReplay | src/capture.rs:1252-1271 | in any replay a reservation is the last one declared, kept by a close exactly while its AVTP stream is |
| ReplayTraces.VlanOfReplay | src/capture.rs:1274-1282 | in any replay a VLAN stays registered until a close finds no AVTP stream left |
| ReplayTraces.PortOfReplay | src/capture.rs:1285-1295 | in any replay an energy-saving port stays known with the wake times given last |
| ReplayTraces.DeviceOfReplay | src/capture.rs:1061-1077 | in any replay a ConMon device has the MAC and time of its last packet, the channels last given and the number of its packets, until a close finds it 60 s old |
| ReplayTraces.SourceOfReplay | src/capture.rs:226-233 | in any replay a Dante source stays tracked from its first sign until a new one evicts it from a full set of 4096 |
| ReplayTraces.NameOfReplay | src/capture.rs:226-233 | in any replay and goes by the name it announced last since |
| ReplayTraces.ClassOfReplay | src/capture.rs:238-243 | in any replay and its class is the software one last identified, else hardware after any hardware sign |
| ReplayTraces.SenderOfReplay | src/capture.rs:387-393 | in any replay an NDI source stays known until a new one evicts it from a full set of 4096 |
| ReplayTraces.SenderStreamOfReplay | src/capture.rs:1172-1185 | in any replay the stream of an NDI sender counts the segments attributed to it and was heard at the last, until a close finds that 20 s old |
| ReplayTraces.CachedOfReplay | src/capture.rs:809-822 | in any replay a session is cached as announced last until a new one evicts it from a full cache of 1024 |
| ReplayTraces.TrafficOfReplay | src/main.rs:321-358 | in any replay the traffic counters are the octets, multicast octets, frames, PAUSE and PFC frames since the last close |
| ReplayTraces.HealthOfReplay | src/capture.rs:1194-1206 | in any replay the congestion marks and retransmissions the score reads are those since the last close |
| ReplayTraces.V3ReportOfReplay | src/capture.rs:1315-1323 | in any replay the report flag is up if and only if a version-3 report came since the last close |
| Substates.IgmpState.CheckMultipleQueriers | src/capture.rs:449-464 | the conflict is flagged on the health record exactly when two queriers meet active multicast |
| Substates.IgmpState.ResetWindow | src/capture.rs:431-436 | queriers and report flag cleared, joins older than 300 s forgotten |
| Substates.AvbState.ResetWindow | src/capture.rs:514-525 | AVTP pruning with the reservations, VLANs and entities that depend on it |
| Substates.PtpState.CheckTimeouts | src/capture.rs:563-576 | every domain checked once, one alert per clock lost, in the order of the walk |
| Substates.PtpState.ResetWindow | src/capture.rs:550-557 | Sync census cleared and stale followers pruned |
| HistoryLaws.HistoryIsOfCloses | src/capture.rs:1395-1473 | at every point of every replay the history holds the stream counts of the last three closes, and the suspicion counter is the length of the trailing run of suspected closes |
| HistoryLaws.SpikeIsReportedExactly | src/capture.rs:1452-1473 | a report warns of a flood of streams if and only if three reports precede it and there are more than twice the rounded, non-zero mean of their stream counts, which are the numbers it names |
| HistoryLaws.FilterIsReportedExactly | src/capture.rs:1395-1413 | a report blames a multicast filter if and only if its close and the one before it both saw ConMon devices but no name, clock message, stream or AVTP |
| CheckLaws.ClockAlertsExactly | src/capture.rs:1696-1720 | the combined alert is raised if and only if an IP clock of a version, lost or falling silent now, meets losses of its family; otherwise one alert for each clock falling silent, and no other |
| CheckLaws.LostAlertsCount | src/capture.rs:563-576 | there are as many of these as clocks falling silent |
| CheckLaws.QuerierAlertsExactly | src/capture.rs:1377-1446 | the exact conditions of the alerts on query interval, rival queriers, querier version, multicast bandwidth and snooping |
| CheckLaws.EmissionInOrder | src/capture.rs:1548-1577 | the stand-alone alerts of a close print in a fixed order of kinds, each once but for the clocks falling silent |
| CheckLaws.NoDhcpExactly | src/capture.rs:270-297 | an address is reported without DHCP if and only if it is self-assigned, a source, and another of two or more sources is not |
| CheckLaws.SubnetsExactly | src/capture.rs:298-311 | and the number of subnets if and only if the other sources span two or more |
| CheckLaws.BridgeExactly | src/capture.rs:248-268 | a MAC is reported with addresses if and only if these are two or more and exactly those it was seen from |
| CheckLaws.FollowersExactly | src/capture.rs:315-350 | the census reports exactly the sources that neither follow nor are the grandmaster chosen, unless no grandmaster is known and there is only one; it needs a PTPv1 domain, two sources and a follower |
| CheckLaws.ChoiceExactly | src/capture.rs:322-325 | the grandmaster chosen is one that some PTPv1 domain names, and none if and only if no such domain names any |
| CheckLaws.SyncExactly | src/capture.rs:586-615 | a PTPv1 domain is reported if and only if two or more senders of Sync are in its census: those of stratum 0 if they are two or more, else all of them |
| CheckLaws.MissingNames | src/capture.rs:1489-1529 | a missing clock names exactly the families that need it: selected and seen |
| CheckLaws.CloseReports | src/capture.rs:1539-1617 | what a close collects is all of these, on the state before it |
| CaptureState.CaptureState.CollectEmission | src/capture.rs:1548-1577 | the stand-alone alerts in print order, each as on the state before the close, and the state the score is taken from |
| CaptureState.CaptureState.EndOfWindow | src/capture.rs:1539-1617 | the returned checks are those of the state before the reset, with the timeout check's writes visible to dropout correlation and missing clocks, and the new state is the closed one with the score of the state before the reset |
| CaptureState.CaptureState.ResetWindow | src/capture.rs:711-760 | counters, pruning and substates; Dante sources are verified by the streams that survive |
| CaptureState.CaptureState.CheckClocks | src/capture.rs:1548-1556 | one combined alert when a lost clock meets losses in its family, else one per lost clock |
| CaptureState.CaptureState.HandleTcp | src/capture.rs:1165-1215 | the NDI gate, the sender's presence and the connection |
| CaptureState.CaptureState.HandleSap | src/capture.rs:778-802 | every announced media enriches every stream it matches, then the session is cached |
| CaptureState.CaptureState.CacheSdp | src/capture.rs:809-822 | at capacity a new session evicts a stale one if there is any, else an arbitrary one |
| CaptureState.CaptureState.HandlePtp | src/capture.rs:894-926 | the follower record and the update of the domain's entry; the result is the event the source alerts on |
| ReplayEntries.ReplayCountsAvtpFrames | src/capture.rs:1219-1249 | in any replay a present AVTP stream counts its frames since it appeared, the last of which is when it was seen, the forward gaps of their true positions (exact if and only if regular), and those whose priority differed from the one declared when they came |
| ReplayEntries.ReplayTracksTrueMaximum | src/capture.rs:1165-1215 | in any replay a present connection holds the true maximum position of its segments since it appeared, the exact number of retransmissions, the time of the last of them, and the quality they deserve |
| ReplayEntries.ConnPrunedExactly | src/capture.rs:736-739 | in any replay a close removes a connection if and only if the last of its segments is 20 s old, or a reset or two FINs are among them |
| ReplayEntries.AvtpPrunedExactly | src/capture.rs:515-517 | in any replay a close removes an AVTP stream if and only if its last frame is 20 s old |
| ReplayEntries.ReplayDomainLifeCycle | src/stats.rs:1278-1374 | in any replay every clock domain lives the life cycle over its own messages, the timeout checks and the window resets: validity, change counter, last message, delay extremes, number of messages, kind of the last one, address of the last announcing one that carried it, and the Sync senders since the last reset with their last stratum |
| CaptureState.CaptureState.HandleMsrp | src/capture.rs:1252-1271 | all declarations are recorded, later ones winning; the result is the failed talkers with their failure codes, which the source alerts on, in order |
| CaptureState.FailuresInOrder | src/capture.rs:1254-1270 | every failed talker of a frame is reported in its place with its code, and nothing else |
| HistoryLaws.QueriesAreRemembered | src/capture.rs:1324-1345 | at every point of every replay the record holds time and version of the last general query and the whole seconds between the last two, whatever closes lie between, and the queriers are the sources heard since the last close |
| CaptureState.CaptureState.HandleNdiDiscovery | src/capture.rs:387-393 | the NDI sources are bounded like the Dante ones |
| CaptureState.CaptureState.ProcessPacket | src/main.rs:321-358 | one packet, by any handler, equals the packet step on the value, with an eviction the source could have made |
| CaptureState.ReplayPacket | src/main.rs:461-476 | clock, handlers, then the report decision: one step of the replay |
| CaptureState.ReplayFile | src/main.rs:423-477 | the offline loop ends in the state of the replay the laws are about, with one report per close made from the state before it, the invariant established, and the exit status read from the last score |
| Replay.OfflineReportClock.ShouldReport | src/main.rs:266-277 | a report is due when five whole seconds of capture time have passed since the last or since the first packet |
| Replay.CaptureClock.Now | src/main.rs:299-313 | offline, the anchor plus the timestamp difference, never before the anchor |
| Replay.NowOfReplay | src/main.rs:299-313 | at any point of a replay the time is its start plus the microseconds between the first and the last timestamp, and never before the start |
| Replay.StreamPrunedExactly | src/capture.rs:732-735 | a close prunes a stream if and only if its last packet is at least 20 s old |
| ReplayTimes.TimestampsDecide | src/capture.rs:36-39 | every replay of every file on given timestamps shows each stream dead before pruning it if and only if, for each decoded packet and each close twenty seconds or more after it, an earlier close lies more than ten seconds after it |
| ReplayTimes.ShownInTimeSuffices | src/main.rs:262-313 | on timestamps that pass, whatever the packets, each pruned stream was shown dead for the same silence |
| ReplayTimes.ShownInTimeIsNeeded | src/main.rs:262-313 | on timestamps that fail at a packet, the file with that one media packet and otherwise unmonitored traffic has its stream pruned unseen |
| ReplayTimes.DenseIsShownInTime | src/main.rs:262-313 | decoded packets at most five whole seconds apart pass |
| Replay.DenseReplayShowsDeadFirst | src/main.rs:262-313 | if decoded packets are at most five whole seconds apart, closes are less than 10 s apart and every pruned stream was shown dead at the close just before |
| Replay.SixSecondsAreTooMany | src/capture.rs:36-39 | with decoded packets up to six whole seconds apart a stream can be pruned that no report has shown dead, so five is the largest bound |
| Replay.SparseReplayPrunesUnseen | src/capture.rs:36-39 | with a gap of 20 s or more the first close can prune a stream no report has shown |
| FrameLaws.FrameTouches | src/capture.rs:953-1133 | no frame removes a stream, and a stream's last packet time is now or as it was |
| FrameLaws.FrameKeepsBounds | src/capture.rs:138-153 | whatever frame arrives and whatever is evicted, the source sets and the session cache stay within their capacities |
| FrameLaws.SdpCacheStaysBounded | src/capture.rs:809-822 | at most 1024 sessions, the newest among them |
| FrameLaws.LiveSessionDroppedOnlyIfAllLive | src/capture.rs:813-820 | a session is dropped only by a new one from a full cache of 1024, and one with packets at a port of its media only if every cached one has them |
| FrameLaws.EnrichedTouches | src/stats.rs:245-260 | announcements change neither counters nor presence and never withdraw a confirmed rate |
| SapLaws.EnrichedExactly | src/stats.rs:245-260 | an announcement gives a stream the rate, packet time and payload type of the last of its media that match the stream's port, and group if they name one, and tell one; nothing else of the stream changes |
| SapLaws.AnnouncementReachesAll | src/capture.rs:784-793 | it does so for every stream and adds or removes none |
| SapLaws.AnnouncementOfReplay | src/capture.rs:778-802 | in any replay the payload type expected of a stream is that of its creation or the one announced last for its address since, and it counts as RTP once a packet of it was |
| CloseLaws.CloseEstablishes | src/capture.rs:711-760 | after every close all window counters are zero, reservations belong to present AVTP streams, no AVTP means no VLANs, and whatever survived was heard within its limit |
| CloseLaws.FreshTimeoutCorrelates | src/capture.rs:1548-1556 | a clock that times out at this very close already counts as lost for the dropout correlation and replaces the individual alerts |
| CloseLaws.FreshTimeoutIsMissing | src/capture.rs:1594 | and as missing in the same close: for each clock family the close reports its clock missing if and only if the family is needed and no clock it can use was both valid and in time |
| CloseLaws.CensusPrecedesPruning | src/capture.rs:1581-1603 | a follower this close prunes is not yet reported by it |
| CloseLaws.DropoutFlagNeverSurvives | src/capture.rs:759 | the flag is down after every close, even when the combined alert was emitted |
| CloseLaws.SummaryAccountsForScore | src/capture.rs:1585-1603 | the summary rendered after a close never accounts for more than the score deducted, and for all of it if and only if nothing was forgotten: no window-scoped issue, no pruned stream, no pruned penalised entry |
| CloseLaws.ClosedIsHealthy | src/capture.rs:711-760 | what a close leaves is healthy if and only if, before it, what survives was: kept streams, connections and AVTP streams, clocks not timing out, no energy-saving port |
| CloseLaws.SummaryPartsFromScore | src/capture.rs:1640-1647 | score 100 and empty summary agree if and only if, in the state before the close, health of what survives implies that nothing is forgotten |
| SummaryWitness.LossIsScoredButNotPrinted | src/capture.rs:1640-1647 | they disagree on the one close of a capture of two audio packets with a gap of one between them |
| RunLaws.ReplayKeepsInvariant | src/capture.rs:623-667 | in every reachable state of every replay, and at every report, the maps are bounded, window counters are at most lifetime totals, sample buffers within capacity, a stream has packets exactly when it was heard, and a PTP domain sits under its key and is valid exactly while it remembers a grandmaster |
| RunLaws.FrameKeepsInvariant | src/capture.rs:762-1368 | every handler keeps it |
| RunLaws.CloseKeepsInvariant | src/capture.rs:711-760 | every close keeps it |
| RunLaws.WindowsAddUp | src/capture.rs:720-731 | at any point of any replay the lifetime losses and discontinuities of a present stream are those of the windows closed since it appeared plus the current one, and its packets are so if and only if it is not an NDI sender |
| RunLaws.NdiPacketGoesUncounted | src/capture.rs:1183-1184 | a discovered NDI sender and one packet: the stream has a packet, and neither the current window nor a closed one counts any |
| ReplayLoss.FrameFollows | src/capture.rs:953-974 | frames of other streams, announcements and control traffic leave a stream's loss tracker alone; its own RTP frames advance it |
| ReplayLoss.CountedLossIsTrueLoss | src/stats.rs:282-303 | from file to windows: the losses of a present stream in the windows closed since it appeared plus the current one are the forward gaps of its own true positions, that is the packets that never arrived plus the excess, exact if and only if the run is regular |
| ReportLaws.DiagnosticsAfterReset | src/stats.rs:475-554 | the diagnostics of a stream after the reset are those before it whose condition outlives the window, and all of them if and only if the window counted nothing a diagnostic is raised for |
| ReportLaws.ReportShowsLasting | src/capture.rs:1603-1647 | every report of every replay shows, of what was scored for a stream, the lasting diagnostics if it survives the close and none if it is pruned; all of them if and only if it survives and its window was quiet |
| ReportLaws.ShownWindowsAreEmpty | src/capture.rs:720-731 | no report shows a packet, loss or discontinuity of the window it closes |
| ReportLaws.ShownLossIsTrueLoss | src/report.rs:784-787 | the loss every report prints for a stream is the share of the forward gaps of the true positions the file had carried for it since it appeared, that of the missing packets if and only if the run is regular |
| SummaryWitness.LossIsScoredButNotShown | src/capture.rs:1603-1647 | on a capture of two audio packets with a gap of one between them the loss is scored and the report of the surviving stream leaves it out |
| Mvrp.ParseMvrp | src/parser/avb.rs:133-172 | both loops with every early return equal the walk on the payload; they end on every payload |
| Mvrp.ParseUndoesEncode | src/parser/avb.rs:133-172 | for any messages and vectors, LeaveAll-only headers and foreign attributes included, the VLANs read are the declared consecutive values modulo 4096 without 0, each once, in the order of first occurrence |
| Mvrp.TruncationReadsPrefix | src/parser/avb.rs:148-167 | cutting any payload anywhere reads a prefix of what the whole reads |
| Dns.SkipDnsName | src/parser/mdns.rs:37-45 | the loop equals the walk over labels and ends on every payload |
| Dns.SkipLandsAtEnd | src/parser/mdns.rs:37-45 | skipping lands exactly behind an encoded name, plain or ended by a pointer |
| Dns.ExtractInstance | src/parser/mdns.rs:71-101 | both loops with every early return equal the walk on the payload |
| Dns.ExtractUndoesEncode | src/parser/mdns.rs:71-101 | for any questions and answers the result is the trimmed first label of the first PTR record whose first label is printable, or none |
| Dns.ExtractedIsBare | src/parser/mdns.rs:52-63 | whatever the payload, a name is non-empty printable ASCII without white space at its ends |
| Dns.LabelReads | src/parser/mdns.rs:52-63 | with any UTF-8 white space around it a text is the name if and only if it is printable ASCII |
| Dns.TruncationFindsSameOrNone | src/parser/mdns.rs:71-101 | cutting any payload anywhere yields the name of the whole or none, never another |
| Dns.LabelIgnoresLength | src/parser/mdns.rs:89-95 | the label is taken whatever RDLENGTH says |
| IgmpReports.ParseReport | src/parser.rs:158-178 | the loop equals the walk over at most the announced number of records |
| IgmpReports.ParseUndoesEncode | src/parser.rs:158-178 | for any records with any sources and auxiliary data the multicast addresses come back in order |
| IgmpReports.TruncationReadsPrefix | src/parser.rs:158-178 | cutting any report anywhere reads a prefix of its groups |
| Vlan.UnwrapVlan | src/parser.rs:119-137 | the loop equals the walk over tags |
| Vlan.UnwrapUndoesTagging | src/parser.rs:119-137 | any number of stacked tags is peeled off and the outermost priority reported, none if untagged |
| Vlan.TruncationCutsPayloadOnly | src/parser.rs:119-137 | cut before its payload a frame is refused, cut inside it only the payload shrinks |
| Sdp.ParseSdp | src/parser/sdp.rs:45-132 | the loop over lines equals the fold |
| Sdp.SectionsCompose | src/parser/sdp.rs:67-82 | for all lines, a media line starts afresh: earlier sections stay as they stood and later lines yield the sections they yield on their own |
| SdpPrint.ParseUndoesPrint | src/parser/sdp.rs:45-132 | printing any canonical session with any number of sections and parsing the text gives it back |
| SdpPrint.MediaLineReadsBack | src/parser/sdp.rs:67-82 | port and payload types of a media line read back |
| SdpPrint.RateReadsBack | src/parser/sdp.rs:94-102 | encoding, clock rate and channels of an rtpmap read back |
| SdpPrint.PaceReadsBack | src/parser/sdp.rs:104-113 | packet time, given directly or as a frame count over the clock rate |
| Text.WordsOfSpaced | src/parser/sdp.rs:70 | splitting at white space undoes joining words |
| Text.SpaceExactly | src/parser/sdp.rs:50-70 | white space is the 25 code points that Unicode calls so |
| Text.ParseUndoesDecimal | src/parser/sdp.rs:72-77 | parsing an unsigned decimal within range undoes printing it |
| SdpFaults.UnsignedReads | src/parser/sdp.rs:72-77 | with a plus sign or a leading zero too; out of range it is refused |
| SdpFaults.UnsignedRefuses | src/parser/sdp.rs:72-77 | as is anything that is not digits behind at most one plus sign |
| SdpFaults.LinesInPlace | src/parser/sdp.rs:55-92 | a later name, description or connection replaces an earlier one; a description inside a media section and a connection or attribute outside one are ignored |
| SdpFaults.OriginReads | src/parser/sdp.rs:56-60 | the identifier is the second part of the last origin line that has one |
| SdpFaults.OtherLinesSkipped | src/parser/sdp.rs:49-51 | lines shorter than two characters, without an equals sign in second place or of another kind change nothing |
| SdpFaults.MediaLineReads | src/parser/sdp.rs:67-82 | a media line of fewer than four words ends the section before and opens none; one whose port does not read opens one on port 0 |
| SdpFaults.TypesRead | src/parser/sdp.rs:72-74 | the payload types that read as an octet are kept, in order, the others skipped |
| SdpFaults.RateReads | src/parser/sdp.rs:94-102 | for any texts: an unreadable clock rate is 48 kHz and an unreadable channel count 1, missing ones leave the section as it is |
| SdpFaults.PaceReads | src/parser/sdp.rs:104-113 | an unreadable packet time is 1 ms, an unreadable frame count or one without a clock rate is ignored |
| SdpFaults.OtherAttributesSkipped | src/parser/sdp.rs:92-119 | nor do an rtpmap without a space and other attributes |

## Left out

- Rounding: `f64` is modelled by exact reals; the coefficient of variation is compared by its square, so no root is taken; NaN and infinities, which an announced rate of `inf` can bring in, are not modelled.
- Streams.StreamStats.Update: requires a positive clock rate, which every stream that receives RTP has (NDI entries have rate 0 and never do); the bitrate accumulator and rate are not modelled, because nothing scored or alerted on reads them.
- Streams.StreamStats.UpdateNonRtp: the same bitrate fields.
- Tcp.TcpStreamStats.HandleSegment: the bitrate, which nothing but the printed line reads.
- CaptureState.CaptureState.HandleTcp: the same field, the address pair of the entry, and the name of an NDI sender.
- Dante.DanteState.Handle: begins after the test for the capture interface's own addresses, which are the host's; the naming of streams seen before their device, and the discovery alert are not modelled.
- CaptureState.CaptureState.EndOfWindow: `aggregate_ndi_bitrate`, which only sets the printed bitrate of NDI streams.
- CaptureState.CaptureState.HandleSap: session names, encodings and channel counts of streams and the queue of groups to join are not modelled; nothing scored or alerted on reads them.
- CaptureState.CaptureState.HandleNdiDiscovery: begins after the same test for the interface's own addresses; the name map and the discovery alert are not modelled.
- CaptureState.CaptureState.ProcessPacket: the three packet totals of the session, which are only printed, and selection of protocols, whose outcome is whether a frame reaches a handler.
- CaptureState.ReplayFile: the `ts_refclk_alerts` of each report, which compare announced clock names as text.
- Ptp.PtpStats.Update: the absolute value of the least 64-bit path delay, which overflows in the source, is taken as an integer.
- SdpPrint.ParseUndoesPrint: clock rates and packet times are integers in canonical sessions; reading a real from text is a parameter known to read decimal integers.
- Replay.DenseReplayShowsDeadFirst: the bound also covers the distance from the last decoded frame to the end of the file, because the final close is stamped with the last frame even if it does not decode.
- ReportLaws.ReportShowsLasting: is about the diagnostics a report goes through; that a HighJitter of at most 20 ms has no line of its own belongs to the texts, which are not modelled.
- Field grouping: the flat fields of `StreamStats` and of the window counters are grouped by concern into records; the class methods update the groups.
- Handlers begin at decoded fields: Ethernet, IP, UDP, TCP, RTP, PTP, ConMon, ADP, LLDP, MSRP and flow-control headers are read by library code or fixed-offset readers that are not part of this model, as are port and address classification, the DSCP gate and `classify`, whose verdicts are inputs of the handlers.
- `mdns_contains` and `extract_mdns_instance_name`: the byte search for inline names; only the structured PTR walk is modelled.
- `parse_sap_packet` and `parse_ts_refclk`: fixed-offset header and suffix reads, together with `ts_refclk_alerts`, which reads them.
- The stream a handler creates for a new key is an input, constrained to be untouched: its rate, packet time and payload type come from a cached announcement, the protocol default or the class, and which cached announcement matches first is up to the map.
- The session cache holds of each session its identifier and, per media, port, connection address, rate, packet time and first payload type; names and text are not kept.
- ConMon devices, AVDECC entities, NDI names and IGMP joins have no capacity in the source and none here.
- Joining of multicast groups, and all bitrate arithmetic.
- Alerts raised by a handler the moment a frame arrives: discovered devices, first join, leave and query, first energy-saving port, new VLAN, AVDECC entities arriving and departing. The grandmaster events and failed talkers are the results of `HandlePtp` and `HandleMsrp`.
- Live mode: the loop's wall-clock report decision and packet timeouts; offline replay is modelled whole.
- Alert and bullet texts, colours, logging, rendering, command line, sockets, pcap handles and process exit.
