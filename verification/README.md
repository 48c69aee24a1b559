# frpanel: verified model of traffic accounting and of the algorithms around it

frpanel runs a panel that drives frp tunnels on many nodes. On each node an agent takes a traffic sample every five
seconds, numbers it, appends it to a log and sends it to every connected panel; after a reconnect it replays the log past
the panel's watermark. The panel drops numbers it has seen, adds the rest to per-day totals, and now and then flushes the
totals and the watermark to its database. This project models that protocol with its crashes, reconnects, full queues,
rotations and failing statements, and proves what it keeps in every run; and it models, in the form the program has them,
the algorithms the protocol is built from and the other stateful parts of agent and panel.

`dafny verify dfyconfig.toml` checks everything, within Dafny's default limits.

## How it is organised

| files | what they hold |
|---|---|
| `Records` | a sample's record, days, byte totals, watermark and age filters, and the algebra of totals |
| `Delivery`, `DeliveryInvariant` | the agent as a transition system: sampler, log, rotation, restart, and any number of panel sessions, each with its replay, gate and queue; its inductive invariant |
| `Accounting`, `AccountingInvariant` | the panel for one node as a transition system: watermark, buckets, the flush statement by statement, restart; its inductive invariants |
| `System`, `ExactlyOnce`, `Harm`, `Losses`, `Links` | both together; theorems over every run: what holds without hazards, which steps exactly do harm, what becomes of a lost sample, what the tracker makes of a replay |
| `Witnesses` | complete runs that show what can go wrong |
| `Conservation`, `Durability`, `Recovery` | theorems over every run of the panel alone, whatever the agent sends |
| `Framing`, `TrafficFormat`, `Wal` | the log as bytes, a format for it, and the log's operations on a file |
| `AgentRuns`, `Broadcast`, `Backfill` | the broadcast and the replay loop, against a growing log, tied to `Delivery`'s steps |
| `Metrics`, `Pipeline` | watermark and ring as classes; the pipeline for all nodes, whose methods are tied to `Accounting`'s steps |
| `TunnelDeltas` | counter differences per tunnel |
| `Ranges` | interval algebra of frps's allowed ports, and the port policy |
| `Limiter` | the two limiters of failed logins |
| `Names`, `Signing` | proxy names, keys, signed bytes |
| `Store`, `Mappings` | the mapping tables, their transactions, the checks in front of them, desired tunnels, reconciliation |
| `Firewall`, `AdminPorts` | ufw reconciliation, allocation of admin ports |

The protocol's steps are the points where goroutines, the network or a crash can come between: numbering, append, the
start and each offer of a broadcast, opening the log file, reading each record, ending a scan, opening the gate, tearing a
session down, rotation, agent restart; connect, handshake, delivery of one message, discarding one that comes too late,
loss of a link; passing the watermark and folding into the bucket (two steps), reading the watermark, draining the buckets,
finding the database down or up, each row, the watermark write, panel restart. History variables record which records stand
behind each total, which numbers were lost, and which may be counted twice; `lost` and `twice` are not assumptions:
`Harm.HarmIff` says exactly in which steps they grow.

## Findings

Where code, comments and intended properties differ, the model follows the code.

* A run counts every sample exactly once in each of its states if and only if none of its steps does *harm*
  (`CountedOnceIffHarmless`). The harmful steps are these (`HarmIff`): the delivery of a message whose number passes
  over one that was logged; an outage found while the drained batch holds records; a failing row; and a panel that stops
  with booked records above its durable watermark or with records in memory at or below it. In every run a logged sample
  is counted once, or lost, or marked as possibly repeated and in the database (`AccountedOrLost`).
* What leads to harm are the *hazards*; without them there is none (`HazardFreeRunsAreHarmless`), every sample is
  counted once the panel has read what a session past its replay has queued (`CaughtUpIsCounted`), and the database
  agrees with its watermark whenever no flush is under way (`DatabaseMatchesWatermark`; `DatabaseAgreesIff` says for
  every state of every run whether it does). They are: a live sample offered to a session after its replay's last look
  at the file and before its gate opens, or to a full queue; a replay broken off with records unsent; a replay that ends
  over a file that rotation has replaced; a rotation that drops what a session has still to send; a connection made too
  late for what has been rotated away; a new sample that the panel throws away, over a link that stays up, because its
  time stamp is outside the replay window (internal/panel/nodeconn.go:271-276; the stamp is set when the message is
  queued); a batch dropped for an outage or a failing row; a failing watermark write; an accounting that straddles the
  moment at which the flush reads the watermark; and a panel that stops between the first row and the watermark. A
  hazard need not do harm: `HazardMayPass` follows one to a state in which all is well. `HandoverCanLoseASample`,
  `LateMessageIsLost` and `UncommittedRowIsCountedTwice` are complete runs that end badly though nothing attempted
  fails.
* When links overlap, the tracker can take a replayed record for an old one (`OverlapMakesReplayStale`). It does so
  exactly if another link has brought that number, or a later one, since this link was made (`ReplayIsStaleIff`). So the
  gate keeps its promise as long as the panel's links follow one another (`ReplayIsNeverStale`); and a record that comes
  too late has been counted or lost before (`StaleMeansSettled`).
* Ending a replay at the round cap is harmless in itself: a replay that has read the current file to its end has nothing
  left to send (`WholeFileSent`).
* A comment at internal/panel/pipeline.go:268-273 says that a node held back after a failing row is recovered at the
  next restart. A restart recovers a lost sample exactly if the durable watermark is below it: the sample is then
  counted once by the time the watermark in memory reaches it, as long as nothing after the restart does harm, and
  otherwise never (`Losses.RestartRecoversIff`). The first flush that writes its watermark before a restart moves it
  past every number lost until that flush began (`CleanFlushMakesLossFinal`), and then no continuation counts the sample
  (`GoneForGood`); `FailedRowCanBeForgotten` is a complete run.
* A torn write can cost two records, not one: the record appended right after the restart is glued to the torn part
  (`ScanOfTornWrite`).
* Reopening the log resumes the numbering exactly if the newest record is still in the file (`ReopenResumesIff`); a log
  that has aged out entirely starts again at one (`AgedOutLogReusesNumbers`), below every watermark.
* A comment at internal/panel/pipeline.go:95-100 says that the deltas of tunnels reported without a port are real.
  Several such tunnels of one protocol share a key, and unless their counters happen to agree, bytes that never flowed
  are reported with every sample (`RepeatIsQuietIff`; `PortlessTunnelsReport` has two such tunnels).
* Sweeping a limiter is invisible if no failure is recorded for an address that a sweep has forgotten together with its
  lapsed ban (`SweepingIsInvisible`), as it is if callers ask `Blocked` right before. That is exact: any failure after a
  guarded run that breaks the guard can be told by some continuation, whatever the policy's limit above one, window and
  ban (`ForgettingShows`), and there are such failures under both policies (`BothPoliciesShow`). A ban starts
  with the failure that reaches the limit (`BanStartsIff`), not the first one beyond it as the comment at
  internal/agent/ratelimit.go:9 says.
* `Since` filters by time exactly if no sample that is too old comes after one that is not (`SinceFiltersIff`); it does
  not look past the first one that is new enough (`OldSampleIsHandedOut`).
* Signed bytes determine a message exactly as long as type, id and nonce hold no newline (`CanonicalIsInjective`,
  `NewlinesAreAmbiguous`).
* The admin-port probe stays in its range exactly for ids that are not negative (`ProbeStaysInRangeIff`); the database
  gives out no others.

## Assumptions

Appends to the log succeed in the protocol (`Delivery`), as the agent ignores their failure; torn appends are the subject
of `Framing` and `Wal`. Rotation in the protocol keeps the newest record, as it does while samples are taken. A log is
never moved to another node or wiped. A restarted panel's watermark is the durable one from the restart on: the program
seeds it when it starts the node's connection, before any handshake (internal/panel/nodemgr.go:85). There is no clock in the
protocol: a message may be found too late at any time. Samples have a time, so that the panel accounts for what the log holds
(`AccountedAsLogged`). A database statement either takes effect or fails. Records are as
the codec of `Framing` requires: one line each, and no part of a line, or part glued to a line, reads as a record;
`SoundFormatExists` gives such a format for traffic records. Integers are unbounded, except where names are parsed.

## Model

| member | source | states |
|---|---|---|
| ExactlyOnce.EveryRunKeepsInv | internal/agent/server.go:237-279 | the protocol's invariant holds in every state of every run |
| Harm.CountedOnceIffHarmless | internal/panel/pipeline.go:32-34 | a run counts every sample up to the watermark exactly once, in records and in bytes, in each of its states if and only if no step passes over a logged number, drops a batch with records, fails a row, or stops a panel whose durable watermark disagrees with what is booked and what is in memory |
| Harm.HarmIff | internal/panel/pipeline.go:246-284 | these, and no other steps of agent, panel, link and crash, add to the numbers lost or possibly repeated |
| Harm.AccountedOrLost | internal/panel/pipeline.go:83-126 | in every run, whatever fails, a logged sample is accounted for once or lost if it is at or below the watermark and neither above, or it is marked as possibly repeated and in the database; and no sample is counted more often than once, and once more per restart |
| Harm.CountedOnceIffNothingLost | internal/panel/pipeline.go:83-126 | in every run, the samples not marked as possibly repeated are counted once up to the watermark if and only if no number but marked ones is lost |
| Harm.HazardFreeRunsAreHarmless | internal/agent/server.go:513-529 | a run without hazards does no harm |
| Harm.DatabaseAgreesIff | internal/panel/pipeline.go:268-284 | in every state of every run, the database holds exactly the samples up to its watermark, each once, if and only if nothing is booked above it or twice, and nothing at or below it is lost or still in memory without being booked |
| Losses.RestartRecoversIff | internal/panel/pipeline.go:268-273 | in every run with a panel restart after which no step does harm, a sample lost before the restart is counted once when the watermark has reached it if it was above the durable watermark at the restart, and not at all if it was not |
| Losses.GoneForGood | internal/panel/pipeline.go:268-284 | a lost sample at or below the durable watermark is counted at the end of no continuation, whatever happens, unless it is one marked as booked before a panel stopped |
| ExactlyOnce.HazardFreeRunsCountOnce | internal/panel/pipeline.go:32-34 | in every run without a hazard each sample up to the watermark is accounted for exactly once, and every day's row, pending row, bucket and remainder add up to exactly these samples' bytes |
| ExactlyOnce.HazardFreeRunsAreClean | internal/panel/pipeline.go:199-285 | over whole runs without hazards nothing is lost, nothing may repeat, and no session that is served or linked has left out a sample |
| ExactlyOnce.DatabaseMatchesWatermark | internal/panel/pipeline.go:268-284 | in hazard-free runs, whenever no flush is under way, the database holds exactly the samples up to its watermark |
| ExactlyOnce.InterruptionsLeaveNoTrace | internal/panel/nodeconn.go:204-247 | two hazard-free runs over the same log and watermark agree on every day's total, however they were interrupted |
| ExactlyOnce.WholeFileSent | internal/agent/server.go:270-278 | a replay that has read the current file to its end, for whatever reason it stops, has left nothing unsent |
| ExactlyOnce.HelloIsTheTracker | internal/panel/nodeconn.go:204-209 | in every run the watermark the panel sends is the one it deduplicates by, though it is chosen between two |
| ExactlyOnce.ReplayIsComplete | internal/agent/server.go:227-236 | after a replay a served session has queued every logged sample past its watermark, but for one the sampler has still to offer |
| ExactlyOnce.CaughtUpIsCounted | internal/panel/nodeconn.go:264-278 | in a run without hazards, once the panel has read all that such a session has queued, every logged sample but the one still to be offered is counted exactly once |
| ExactlyOnce.QueuesAreInOrder | internal/agent/server.go:77-82 | in every run a queue is in order, the replay strictly ascending above the watermark, with at most one repeat at the boundary to live samples |
| Links.ReplayIsStaleIff | internal/metrics/metrics.go:90-100 | in every run, a replayed record that the panel reads is taken for an old one if and only if another link has brought its number or a later one since this link was made |
| Links.ReplayIsNeverStale | internal/agent/server.go:77-82 | so in every run in which the panel connects only when its last link is gone, the tracker takes every replayed record that reaches it, whatever was dropped, discarded or broken off before |
| Links.StaleMeansSettled | internal/metrics/metrics.go:90-100 | a record that comes too late changes nothing and has been counted once or lost before, or is marked as possibly repeated; without hazards it has been counted once |
| System.StepKeepsInv | internal/panel/nodeconn.go:204-278 | every step of agent, panel, connection, delivery, discard and crash keeps the joint invariant |
| System.SkippedIsExcused | internal/metrics/metrics.go:90-100 | every number that a delivered message jumps over is one its session was excused from, unsent or discarded for its time stamp, so nothing else is lost on the way |
| DeliveryInvariant.StepKeepsAgentInv | internal/agent/server.go:513-606 | every interleaving of sampler, replays, rotation and restart keeps order, origin and completeness of every session's queue |
| DeliveryInvariant.ConnectKeepsAgentInv | internal/agent/server.go:190-217 | a session registered at any moment with any watermark up to the newest record starts within the invariant |
| DeliveryInvariant.ScanKeeps | internal/agent/server.go:243-262 | replaying one record, over a file that grows or has been replaced, keeps the session's invariant |
| DeliveryInvariant.OfferKeeps | internal/agent/server.go:519-527 | so does offering a live sample, whatever the gate and the queue |
| DeliveryInvariant.RotationKeeps | internal/agent/wal.go:124-169 | so does a rotation under a scan or between scans |
| AccountingInvariant.StepKeepsPanelInv | internal/panel/pipeline.go:199-285 | every step of the panel keeps totals, watermarks and record counts consistent |
| AccountingInvariant.HarmIff | internal/panel/pipeline.go:199-285 | a step of the panel adds to the numbers lost or possibly repeated if and only if it passes over a number, drops records with a batch, fails a row, or stops with booked records above the durable watermark or others at or below it in memory |
| AccountingInvariant.WatermarksNeverGoBack | internal/panel/store.go:123-126 | the tracker falls only with a restart; the durable watermark never falls, and rises only by a write after a flush in which no row failed |
| AccountingInvariant.StepKeepsWatermarks | internal/panel/pipeline.go:47-63 | persisted, durable and in-memory watermarks stay in this order, and the flush's mark and everything in memory below the last |
| Durability.DurableRisesOverWholeBatch | internal/panel/pipeline.go:216-284 | over every run of the panel, when the durable watermark rises it rises to the mark its flush read, and for every day the rows have grown by the bytes of the whole batch that the flush drained |
| Durability.CleanFlushMakesLossFinal | internal/panel/pipeline.go:268-284 | what was lost when no flush was under way is, after the first later flush that writes its watermark before a restart, lost at the end of every continuation and after a restart there |
| Accounting.StepKeepsBooks | internal/panel/store_metrics.go:44-52 | every table of byte totals, day by day, is the sum of the records it stands for |
| Accounting.LeftoverIsZero | internal/panel/pipeline.go:239-243 | leaving out all-zero rows loses no byte |
| Witnesses.HandoverCanLoseASample | internal/agent/server.go:270-275 | a complete run in which a sample offered just before the gate opens is never counted, though the next one is |
| Witnesses.LateMessageIsLost | internal/panel/nodeconn.go:271-276 | a complete run in which a panel discards a sample for its time stamp, takes the next one, and never counts the first |
| Witnesses.UncommittedRowIsCountedTwice | internal/panel/pipeline.go:261-284 | a complete run in which a panel stops between a row and the watermark and counts the row's sample again |
| Witnesses.FailedRowCanBeForgotten | internal/panel/pipeline.go:258-284 | a complete run in which a row fails, the node is held back, and the next flush moves the durable watermark past the sample, which the database does not hold |
| Witnesses.OverlapMakesReplayStale | internal/metrics/metrics.go:90-100 | a complete run in which a replayed record comes too late because another link was first |
| Witnesses.HazardMayPass | internal/panel/pipeline.go:213-229 | a complete run that takes a hazard and ends with the sample durable and nothing lost or marked as possibly repeated |
| Conservation.TrafficIsConserved | internal/panel/pipeline.go:92-126 | in every run of the panel, a day's gain in row, pending row, bucket and remainder, and the dropped samples, add up to the samples accepted |
| Conservation.EverySampleIsSomewhere | internal/panel/pipeline.go:235-267 | record by record: accounted for and dropped together are what was there and what was accepted |
| Recovery.DatabaseHoldsWhatItClaims | internal/panel/pipeline.go:216-284 | in one life of the panel without a dropped batch, whenever no flush is under way, rows and booked samples are exactly the accepted ones up to the durable watermark |
| Framing.ScanOfAppends | internal/agent/wal.go:71-82 | any number of appended records read back, in order |
| Framing.ScanOfTornWrite | internal/agent/wal.go:103-121 | exactly what survives a write torn at any byte and followed by any appends: at most the torn record and the next one are gone |
| Framing.ReadWithReturn | internal/agent/wal.go:103-121 | a record reads back as well from a line that ends with a carriage return |
| TrafficFormat.SoundFormatExists | internal/agent/wal.go:111-113 | what is asked of the record format can be had for traffic records |
| TrafficFormat.BitsAreInjective | internal/agent/wal.go:71-82 | different records, with any numbers, texts and tunnels, are written differently in that format |
| Wal.Wal.Open | internal/agent/wal.go:40-61 | opening recovers the largest number in the file, wherever it is |
| Wal.Wal.NextSeq | internal/agent/wal.go:63-69 | the next number is one more than the last |
| Wal.Wal.Append | internal/agent/wal.go:71-82 | as much of the line as is written is at the end of the file; a whole line adds the record to what is read |
| Wal.Wal.Record | internal/agent/server.go:584-586 | one sample is logged at the end, under the next number and with its own time, bytes and tunnels, as the runs' step says |
| Wal.Wal.Stream | internal/agent/wal.go:84-122 | a replay hands over the records past the watermark, in order, until the caller stops |
| Wal.ReadAll | internal/agent/wal.go:181-204 | a scan yields what the format reads line by line, corrupt and empty lines passed over |
| Wal.Wal.Rotate | internal/agent/wal.go:124-169 | scanning afterwards is the age filter of scanning before; with nothing to drop the file keeps its bytes |
| Wal.RotationFiltersReplay | internal/agent/wal.go:124-138 | replay after rotation is the age filter of the replay before it, from any watermark |
| Wal.NumbersAreNeverReused | internal/agent/wal.go:40-69 | over any run of logging, rotation and reopening with the newest record kept, numbers are unique and the file ascends |
| Wal.ReopenResumesIff | internal/agent/wal.go:48-54 | reopening resumes the numbering if and only if the newest record is in the file |
| Wal.AgedOutLogReusesNumbers | internal/agent/wal.go:133-141 | a log that has aged out entirely hands out number one again |
| Backfill.Backfill | internal/agent/server.go:237-279 | whatever is appended meanwhile, a replay that is not interrupted has queued exactly the records past the watermark that the log holds when the gate opens, an interrupted one the first of them; it is interrupted if and only if a send was given up or a read failed, has caught up only after a round that sent nothing, and reaches the cap only with rounds that all sent something; the gate is open; and it is a run of `Delivery`'s steps from registration to the open gate |
| Backfill.Round | internal/agent/server.go:241-262 | one pass sends what earlier passes have not, and nothing twice; if it is not interrupted it has read all that the log holds when it ends; and it is one round of the protocol's session |
| Broadcast.Session.SendWait | internal/agent/server.go:479-504 | a replayed record is queued at the end or not at all, and never after teardown |
| Broadcast.Session.Enqueue | internal/agent/server.go:460-473 | a message is queued if fewer than 128 are waiting, and dropped if not |
| Broadcast.BroadcastSample | internal/agent/server.go:509-529 | every session gets the sample at the end of its queue, unless gated or full, and no session is otherwise touched; the protocol can offer the sample to the same sessions with the same room, and its sessions then have the same queues and gates |
| Backfill.ReplayIsAscending | internal/agent/server.go:77-82 | what is replayed is complete above the watermark and strictly ascending |
| Metrics.SeqTracker.Accept | internal/metrics/metrics.go:90-100 | a number passes if and only if it is above the watermark, which becomes the greater of both |
| Metrics.PassedOnceInOrder | internal/metrics/metrics.go:79-100 | over any sequence of numbers, those that pass ascend strictly, end at the watermark, and leave none above it |
| Metrics.AscendingAllPass | internal/agent/server.go:77-82 | numbers offered in ascending order above the watermark all pass |
| Metrics.Ring.Add | internal/metrics/metrics.go:39-48 | the history grows by the sample, the ring keeps its newest part |
| Metrics.Ring.Snapshot | internal/metrics/metrics.go:50-60 | exactly the last samples added, as many as fit, oldest first |
| Metrics.Ring.Since | internal/metrics/metrics.go:62-70 | what is left of these when the too old ones in front are dropped |
| Metrics.SinceFiltersIff | internal/metrics/metrics.go:62-70 | that is the filter by time if and only if no sample that is too old comes after one that is not |
| Metrics.OldSampleIsHandedOut | internal/metrics/metrics.go:62-70 | with a clock that steps back, a sample from before the time asked for is handed out |
| Metrics.SinceFiltersSorted | internal/metrics/metrics.go:62-70 | and so it is for samples in order of time |
| Pipeline.Pipeline.InitNode | internal/panel/pipeline.go:46-63 | seeds a new node, raises and never lowers a known one, and touches no other |
| Pipeline.Pipeline.Get | internal/panel/pipeline.go:72-81 | a node's state, created without a watermark if there was none |
| Pipeline.Pipeline.CommitSeq | internal/panel/pipeline.go:296-305 | the largest number that the process has been told for the node, by its database, by a handshake or with an accepted sample |
| Pipeline.Pipeline.Handshake | internal/panel/nodeconn.go:204-247 | the watermark sent is the one the node then has, at or above the loaded one and everything accepted before, so that the agent is asked for nothing twice |
| Pipeline.Pipeline.Account | internal/panel/pipeline.go:83-148 | a new sample's bytes, spelled out field by field, go into the bucket of the UTC+8 day it was sampled on and into no other day's or node's; an old one changes nothing; only live ones are shown; and these are the panel's two steps |
| Pipeline.ReplayBooksTheSame | internal/panel/pipeline.go:110-126 | a sample leaves the same state whether it comes live or is replayed, and whenever it comes |
| Pipeline.AccountedAsLogged | internal/agent/server.go:243-255 | what a live or replayed message makes the panel account for, at any time, is the record that the log holds, if and only if that has a time |
| Pipeline.Pipeline.TakeTunnels | internal/panel/pipeline.go:92-108 | tunnels without a port count in the bytes and not in the statuses |
| Pipeline.Pipeline.WriteRows | internal/panel/pipeline.go:258-267 | every row of a node is tried; it counts as failed if and only if a statement failed, and otherwise the rows have grown by exactly the batch |
| Pipeline.Pipeline.EndNode | internal/panel/pipeline.go:268-284 | the durable watermark moves only to the flush's mark, only upward, and only without a failure; and if nothing fails it does |
| Pipeline.Pipeline.Flush | internal/panel/pipeline.go:196-285 | for all nodes: buckets are emptied, by steps of the panel; where no statement fails the rows have grown by the bucket and the watermark is durable; where the durable watermark moves the rows have grown by the bucket, whatever failed; with the database down it is untouched |
| Pipeline.NodeTrafficIsConserved | internal/panel/pipeline.go:110-126 | for each node and day, row, bucket and dropped batches are the first row and the samples accepted |
| Pipeline.PipelineConservesTraffic | internal/panel/pipeline.go:32-39 | the same of the pipeline's own fields and tables, in every state between calls |
| Pipeline.Database.IncrTrafficDaily | internal/panel/store_metrics.go:44-52 | adds to a node's day, creating it, or fails |
| Pipeline.Database.SetNodeLastCommitSeq | internal/panel/store.go:123-126 | raises the stored watermark, never lowers it, or fails |
| TunnelDeltas.Sampler.Sample | internal/agent/server.go:551-580 | increments and table are those of going through the list, each entry reported in its place with its own port, protocol and status, and keys not listed are forgotten |
| TunnelDeltas.TableIsTheList | internal/agent/server.go:573-579 | after a sample the table holds exactly the listed keys with their last counters |
| TunnelDeltas.DeltasAreNotNegative | internal/agent/server.go:560-565 | no increment is negative, whatever the list |
| TunnelDeltas.ReportsIncrement | internal/agent/server.go:557-566 | with distinct keys a sample reports for each key the increment over the table |
| TunnelDeltas.IncrementsTelescope | internal/agent/server.go:551-580 | over any run a key's increments are its last counter and what it held before each reset |
| TunnelDeltas.RepeatIsQuietIff | internal/agent/server.go:554-566 | sampling the same list again reports no bytes if and only if entries with the same key have the same counters |
| TunnelDeltas.PortlessTunnelsReport | internal/agent/server.go:551-580 | for two idle tunnels of one protocol without a port every further sample reports bytes |
| Ranges.AllowedRanges | internal/frpcfg/frpcfg.go:138-190 | covers exactly the ports of the interval outside every exclusion, in canonical form |
| Ranges.Clamp | internal/frpcfg/frpcfg.go:145-162 | normalising and clamping keeps what is excluded within the interval |
| Ranges.Merge | internal/frpcfg/frpcfg.go:164-174 | merging keeps the ports covered and makes the list canonical |
| Ranges.Gaps | internal/frpcfg/frpcfg.go:175-189 | the gaps are exactly the ports of the interval that are not covered |
| Ranges.CanonicalIsUnique | internal/frpcfg/frpcfg.go:138-140 | no other canonical list covers the same ports |
| PortPolicy.ValidateRemotePort | internal/portutil/validate.go:5-45 | accepts exactly 1024 to 65535 without the reserved ports |
| PortPolicy.FrpsAllowPorts | internal/agent/geninit.go:173-196 | frps is allowed exactly the ports the panel accepts, without its dashboard's |
| Limiter.Limiter.Prune | internal/agent/ratelimit.go:30-58 | a sweep, in two passes over the maps, leaves recent histories and live bans, and old histories only under live bans |
| Limiter.Limiter.Blocked | internal/agent/ratelimit.go:70-84 | tells whether a ban is live, and forgets an address whose ban has lapsed |
| Limiter.Limiter.Fail | internal/panel/auth.go:271-287 | records the failure among the recent ones after the sweep that is due, and bans from the limit on |
| Limiter.Limiter.Success | internal/agent/ratelimit.go:105-111 | forgets the address |
| Limiter.Limiter.MaybePrune | internal/panel/auth.go:247-254 | sweeps at most once per window |
| Limiter.BanStartsIff | internal/agent/ratelimit.go:86-103 | in every run in order of time, a failure starts a ban if and only if it reaches the limit within the window, counting the failures since the address was last forgotten; so it does in the limiter that sweeps, in guarded runs |
| Limiter.SweepingIsInvisible | internal/agent/ratelimit.go:60-68 | in every run in order of time with no failure for an address that a sweep has forgotten with its lapsed ban, sweeping changes no answer |
| Limiter.SweepingIsInvisibleToCheckingCallers | internal/agent/ratelimit.go:70-103 | so it does for callers that ask before they record |
| Limiter.ForgettingShows | internal/agent/ratelimit.go:60-103 | after any guarded run, a failure that breaks the guard has a continuation, by a caller that asks first, in which the answers differ |
| Limiter.BothPoliciesShow | internal/panel/auth.go:213-245 | for either limiter there is a run in order of time, with one unasked failure for an address whose ban has lapsed, in which it answers otherwise than one that never sweeps |
| Limiter.KeptIsRecent | internal/agent/ratelimit.go:30-34 | after any failure every address kept has failed within two windows or was banned within one |
| Names.ParseItoa | internal/frpcfg/frpcfg.go:208-209 | exactly the 64-bit numbers survive being written and read |
| Names.ItoaIff | internal/frpcfg/frpcfg.go:193-195 | a number has exactly one decimal without leading zeros, and that is the one printed |
| Names.ParseOfName | internal/frpcfg/frpcfg.go:192-214 | a proxy name yields back mapping and node, exactly for 64-bit ids |
| Names.ParsesIff | internal/frpcfg/frpcfg.go:197-214 | a name is read as a mapping and a node if and only if it is an m, a 64-bit number without an underscore, _n and a 64-bit number, and then as these |
| Names.ForeignIff | internal/frpcfg/frpcfg.go:197-214 | every name of another form is foreign |
| Names.NamesAreDistinct | internal/frpcfg/frpcfg.go:192-195 | different targets have different names |
| Names.PrefixIsOwn | internal/panel/app.go:142-144 | a node's prefix matches a key if and only if it is the node's own |
| Names.LiveKeysAreDistinct | internal/panel/app.go:142-144 | different tunnels have different keys |
| Names.LiveTable.GetLive | internal/panel/app.go:158-163 | the status last reported for this very node and port since the node was last cleared, or none |
| Names.LiveTable.SetLive | internal/panel/app.go:146-156 | the status becomes the one last reported for this tunnel and no other; tells whether it is a change |
| Names.LiveTable.ClearLiveForNode | internal/panel/app.go:165-175 | what was reported for a node's tunnels is forgotten, what was reported for others is not |
| Names.NodeLatency | internal/panel/app.go:290-307 | the least positive latency of the node's own tunnels, or its control link's |
| Signing.Envelope.Sign | internal/protocol/sign.go:33-39 | the signature is the keyed hash of the canonical bytes, and nothing else changes |
| Signing.Envelope.Verify | internal/protocol/sign.go:48-71 | the signature is checked before the clock |
| Signing.SignThenVerify | internal/protocol/sign.go:33-71 | verifying what was just signed succeeds if and only if there is no clock or it is within sixty seconds |
| Signing.CanonicalIsInjective | internal/protocol/sign.go:15-31 | the signed bytes determine the message among those without newlines in type, id and nonce |
| Signing.NewlinesAreAmbiguous | internal/protocol/sign.go:15-31 | every other message shares its bytes with a different one |
| Signing.AlteredMessagesAreRefused | internal/protocol/sign.go:15-16 | with a hash that does not collide, an altered message is refused |
| Store.Store.CreateMapping | internal/panel/store.go:225-248 | the mapping under a fresh id and version one with exactly the targets asked for, each with its port, and no other mapping's targets touched; or no change; the database is to blame if and only if a statement failed, else the first row that meets another of its mapping and node or of its node and port |
| Store.Store.UpdateMapping | internal/panel/store.go:253-282 | fields replaced and the version raised by one, only from the expected version; the mapping then has exactly the targets asked for, each with its port, and the targets of all others are as before; or no change; a conflict, a clash and a failure each mean what they say, and a stale version is never anything but a conflict or a failure |
| Store.Store.SetMappingEnabled | internal/panel/store.go:284-296 | the same for the switch alone: switched off, the mapping's tunnels are wanted on no node, switched on, on every node it has a target on; the tunnels of others are as before |
| Store.Store.DeleteMapping | internal/panel/store.go:298-311 | the mapping and its targets go together or stay; the targets of all others stay as they are |
| Store.Store.DeleteNode | internal/panel/store.go:128-153 | a node's targets go, those of other nodes stay as they are, and so do the mappings |
| Store.Store.InsertTargets | internal/panel/store.go:240-246 | targets are inserted in turn up to the first that violates a unique key, which is the error reported, and a real violation |
| Store.ClashIff | internal/panel/migrations/0001_init.sql:51-52 | rows can be inserted if and only if no two are on one node, the mapping has none there, and no target of a row's node has its port; and otherwise the error tells which of the two the first offending row meets |
| Store.Store.DesiredProxies | internal/panel/app.go:377-394 | a tunnel is wanted if and only if some enabled mapping has a target on the node, and then with that mapping's protocol, local port and remark, that target's port, and a name that reads back as both; by mapping, with distinct names and ports |
| Store.EditKeepsSound | internal/panel/store.go:262-270 | an edit from the current version keeps the tables sound, and no earlier edit was made from it |
| Store.InsertKeepsUnique | internal/panel/migrations/0001_init.sql:51-52 | a row that violates no key keeps ports unique per node |
| Mappings.Validate | internal/panel/handlers_mappings.go:87-126 | a request passes if and only if every check holds, and otherwise the refusal is that of the first check that fails, in the program's order |
| Mappings.TargetsPassIff | internal/panel/handlers_mappings.go:99-111 | targets pass if and only if nodes are distinct and ports acceptable |
| Mappings.RefusalIff | internal/panel/handlers_mappings.go:99-111 | a refusal tells what is wrong with the first target that is not in order: its node occurred before, its port is reserved, or its port is out of range |
| Mappings.CheckTargets | internal/panel/handlers_mappings.go:99-111 | the loop finds the first offending target |
| Mappings.OnlyPortsClash | internal/panel/handlers_mappings.go:301-311 | a checked request can violate only the port key, as the error message assumes |
| Mappings.HandleCreate | internal/panel/handlers_mappings.go:136-158 | a created mapping is the one asked for, with exactly these targets and ports, and touches no other; ports stay acceptable; a refusal changes nothing; a busy port is one that its node reports or that another target of the same node has |
| Mappings.HandleUpdate | internal/panel/handlers_mappings.go:160-191 | the same for an edit, under the version the caller has seen, with the targets of all other mappings untouched and never taken for the mapping's own |
| Mappings.DesiredPorts | internal/panel/app.go:386-392 | a node's tunnels are those of its enabled mappings' targets, with distinct names and distinct, acceptable ports |
| Mappings.Reconcile | internal/panel/nodeconn.go:386-412 | tunnels missing and superfluous are told apart, and a proxy whose name is not of the panel's form is never superfluous |
| Firewall.UfwSync | internal/agent/firewall.go:101-148 | wanted rules that are open stay open at every state; every addition precedes every removal; each is tried whatever fails and the first failure reported; all successful leaves open exactly the rules that read as the port and the protocol of one of those wanted; nothing to do does nothing |
| Firewall.RuleReadsBack | internal/agent/firewall.go:36-43 | a text is the rule of a port and a protocol if and only if it reads as that port in plain decimal, a slash, and udp for protocols that begin so in any case, else tcp |
| Firewall.AddMissing | internal/agent/firewall.go:127-137 | exactly the missing rules are asked for, in sorted order, and closing none |
| Firewall.DropStale | internal/agent/firewall.go:138-147 | exactly the stale rules are dropped, in sorted order |
| Firewall.RemoveManagedRules | internal/agent/firewall.go:84-99 | every managed rule is tried, and with no failure none is left |
| Firewall.SortedKeys | internal/agent/firewall.go:150-159 | the keys, each once, sorted |
| Firewall.OrderIsLexicographic | internal/agent/firewall.go:157-158 | that order is the one by the first character that differs, with a part before the whole |
| Firewall.ListingIsUnique | internal/agent/firewall.go:150-151 | there is only one such list, so the commands are determined |
| AdminPorts.FrpcManager.AdminPort | internal/panel/frpcmgr.go:69-101 | a node keeps its port; a new one gets 7400 and its id if that is in the range and free, else the first free port of its probe, or its base if there is none |
| AdminPorts.FrpcManager.Allocate | internal/panel/frpcmgr.go:69-101 | the port given is free if and only if some port is, and then ports stay distinct and in range |
| AdminPorts.ProbeVisitsEachOnce | internal/panel/frpcmgr.go:85-86 | the probe tries each of the 101 ports exactly once |
| AdminPorts.ProbeStaysInRangeIff | internal/panel/frpcmgr.go:81-86 | the probe stays in the range if and only if the id is not negative |

## Left out

- Transport, TLS, HTTP, systemd, process supervision, self-update, installation and the browser front end: connections are queues whose undelivered end is lost with the link.
- SQL and its driver: tables are maps with their unique keys; a statement that takes effect and yet reports an error is not modelled.
- The minutely, hourly and daily resource rollups and the minute aggregate, which involve floating point and run inside the database.
- JSON, bcrypt, JWT, the hash function and certificates: library code, taken as a codec with stated properties and as an uninterpreted function.
- Log lines longer than the scanner's limit of four megabytes, and the errors of opening or renaming the log's files.
- `/proc` parsing, latency probes, TOML rendering, log throttling, backoff, node connection lifecycle and token rotation.
- `parseManagedSpecs` and the text of ufw's output: the set of managed rules is what listing yields.
- Pipeline.Pipeline.Account: calls run one at a time; what comes between them when they do not is in `Accounting`, where accepting and folding are separate steps. The realtime ring is modelled by itself, and neither the minute aggregate nor the event log is.
- Pipeline.Pipeline.Flush: does not count dropped batches, and a node's database row exists as long as its state does, so removing a node is not covered.
- Backfill.Backfill: the log may grow by any finite number of records while it runs, each a whole sample of the sampler, and is not rotated under it; finer interleavings and rotation under a replay are covered by `DeliveryInvariant`.
- Broadcast.BroadcastSample: sessions' queues hold metric samples; events share the channel in the program.
- Store.Store.DeleteNode: the node's metric rows and its own row are not modelled.
- Signing.SignThenVerify: times are unbounded integers, so a difference that overflows 64 bits is not modelled.
- TunnelDeltas.Sampler.Sample: a key is the pair of protocol and port rather than their concatenation.
- Shanghai's clock is taken to be eight hours ahead always; the daylight saving time it had until 1991 is not modelled.
- RemoveNode, and the deletion of a node while its samples arrive, are not part of the protocol.
