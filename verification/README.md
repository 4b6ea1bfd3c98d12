# Verified model of the logger, gateway and bridge

A Minecraft logger writes what it sees to PostgreSQL and streams it through an event
gateway (`terminal-client`); a Discord bridge follows the stream or polls the tables.
This project models the parts of that system whose correctness spans several steps or
several processes, and proves what they guarantee.

The modules, in the order in which they build on each other:

- `GatewayHub` (`hub.dfy`): sequence numbers, the bounded ring and the replay queries,
  as three separately visible ingest steps over an unbounded log kept as history.
- `ConsumerConnection` (`connection.dfy`): one consumer connection interleaved with
  ingests. Snapshot and subscription are separate steps. The broadcast channel keeps its
  newest 1024 values; a receiver further behind is told once and moved to the oldest kept.
- `ConsumerFeed` (`consumer_feed.dfy`): what one consumer is fed, in terms of the run's own
  steps: the history behind the losses, and the whole output of a consumer that never lagged.
- `StreamResume` (`resume.dfy`): gateway, connections, the reconnecting subscriber and
  the bridge's sequence filter, with gateway restarts at any point.
- `ExactlyOnce` (`exactly_once.dfy`): when resuming loses and repeats nothing.
- `LineFraming` (`framing.dfy`): the capped line reader over arbitrary socket reads.
- `PresenceWriter` (`presence_writer.dfy`): the batched writer; `player_presence` is a
  map, the event log a bag of rows, and each SQL statement an operation on them.
- `TabPresence` (`tab_presence.dfy`): who is online and hidden on the tab list, which
  rows that produces, and when the list counts as settled.
- `OnlineTable` (`online_table.dfy`): end to end, tab list and batched writer side by side: what
  the table shows, and exactly which calls and which flushes part it from the tab list.
- `Standby` (`standby.dfy`): primary and standby as two timed loops over one heartbeat row.
- `FeedCursor` (`feed_cursor.dfy`): the polled feed's two cursors under failing statements.
- `PresenceDedup` (`presence_dedup.dfy`): the 20 second join/leave filter.
- `FeedDelivery` (`feed_delivery.dfy`): the filter in front of a delivery that may fail and
  be tried again.
- `RateLimit` (`rate_limit.dfy`): the waiting and the dropping fixed-window limiters.
- `GreedyPacking`, `FeedPacking` (`feed_packing.dfy`): packing feed lines into embeds.
- `ChannelExport` (`channel_export.dfy`): the paged channel export.
- `StatusCodec` (`status_codec.dfy`): VarInts, strings, packets, the incremental status read.

`Basics` holds the shared vocabulary. Methods of classes follow the program statement by
statement and are proved equal to specification functions; the main results are lemmas
about every run of those functions. `dafny verify dfyconfig.toml` checks everything.

Where the code and its own comments disagree, the model follows the code:

- hub.rs 836-837 says subscribing before the backfill loses nothing. An event ingested
  between the snapshot (782-798) and the subscription (838) is lost unless a later lag
  repair still finds it in the ring; it is one of the three named losses.
- hub.rs 858-860 says the ring usually still holds what a lagging consumer missed. With a
  ring shorter than the channel the repair gives up events the channel still held.
- mc-stream/src/lib.rs 888-898 resets the counter when the gateway is behind, "taking the
  feed from the top". The hello already sent carries the old resume point, so this
  connection is served above it; and the first event then read sets the counter again
  (874-885), so the next hello has no resume point only if nothing was read in between.
- presence-truth.ts calls VarInts of more than five bytes too long but reads six.

## Model

| member | source | states |
|---|---|---|
| GatewayHub.Hub.constructor | terminal-client/src/hub.rs:512-544 | a hub starts at the clock reading, empty, with a ring of at least one |
| GatewayHub.Hub.Evict | terminal-client/src/hub.rs:630-633 | popping leaves the ring's newest part and counts exactly what was popped |
| GatewayHub.Hub.Ingest | terminal-client/src/hub.rs:625-642 | one ingest is stamp, push and send of the same event with the next sequence |
| GatewayHub.Hub.ReplaySince | terminal-client/src/hub.rs:644-650 | the loop returns the buffered events above the sequence, in order |
| GatewayHub.Hub.ReplayLast | terminal-client/src/hub.rs:653-657 | the newest n buffered events |
| GatewayHub.StampKeeps | terminal-client/src/hub.rs:626-627 | stamping keeps: consecutive sequences, ring a suffix of the log, counters balanced |
| GatewayHub.PushKeeps | terminal-client/src/hub.rs:628-635 | so does buffering, which never moves the ring back |
| GatewayHub.SendKeeps | terminal-client/src/hub.rs:636-640 | so does the fan-out |
| GatewayHub.RingRefinesLog | terminal-client/src/hub.rs:625-642 | after any ingests the ring is the last min(k, cap) of them, sequences consecutive from the seed, events in = ring + evicted |
| GatewayHub.ReplaySinceRefinesLog | terminal-client/src/hub.rs:644-650 | a resume query equals the query on the unbounded log if and only if nothing wanted was evicted |
| GatewayHub.ReplayLastRefinesLog | terminal-client/src/hub.rs:653-657 | the newest-n query equals that on the unbounded log if and only if n fits the ring or nothing was evicted |
| ConsumerConnection.ConsumerTask.constructor | terminal-client/src/hub.rs:839 | the comparison sequence starts at the resume point or 0 |
| ConsumerConnection.ConsumerTask.WriteEvent | terminal-client/src/hub.rs:841-842 | a write appends the event and raises the comparison sequence, never lowers it |
| ConsumerConnection.ConsumerTask.WriteBatch | terminal-client/src/hub.rs:840-867 | backfill and refill write a whole list in order |
| ConsumerConnection.ConsumerTask.OnReceived | terminal-client/src/hub.rs:849-856 | a received event at or below the last sequence is skipped, any other written |
| ConsumerConnection.StepKeeps | terminal-client/src/hub.rs:769-890 | every step of gateway and connection keeps the accounting of each log position |
| ConsumerConnection.RunKeeps | terminal-client/src/hub.rs:769-890 | so does every run |
| ConsumerConnection.LossAccounting | terminal-client/src/hub.rs:782-872 | in every interleaving each event from the first log position the hello asked for to the last one sent was written, once and in order, if and only if it is in none of three named losses; which position that is, and that the losses speak of what happened, is ConsumerFeed's |
| ConsumerConnection.RepairRunEnds | terminal-client/src/hub.rs:857-872 | left alone, the lag handler runs to its end and writes exactly what its ring query returned |
| ConsumerConnection.LagRepair | terminal-client/src/hub.rs:857-872 | a repair that runs to its end, whatever is ingested meanwhile, misses exactly the sequences below the ring, none if and only if the backlog fits the ring, and nothing up to the newest is sent again |
| ConsumerConnection.RepairSkipsHeldEvents | terminal-client/src/hub.rs:857-872 | whatever is ingested before, during and after the lag, of the events the channel still held a repair writes exactly those the ring still has, and gives some up if and only if the ring begins later; with a full channel and complete ingests that is 1024 - cap of them |
| ConsumerFeed.HistoryIsRun | terminal-client/src/hub.rs:782-872 | over every run the history the losses are stated on is what the run did: the ring at the snapshot, what was fanned out at the subscription, each lag repair's query |
| ConsumerFeed.FreshStart | terminal-client/src/hub.rs:782-798 | in every run the first position a consumer without a resume point is owed lies min(replay, ring length) before the end of the log the snapshot saw |
| ConsumerFeed.FreshConsumer | terminal-client/src/hub.rs:782-856 | in every run without a lag a consumer without a resume point is written exactly the newest min(replay, pushed, cap) events of the log at the snapshot, then what it received and the snapshot did not hold |
| ConsumerFeed.ResumedConsumer | terminal-client/src/hub.rs:782-856 | likewise with a resume point: all the ring held above it, then what it received and neither covers |
| ConsumerFeed.LagsExactly | terminal-client/src/hub.rs:857-872 | a consumer is told of its first lag exactly when more than 1024 events are fanned out beyond those it received |
| StreamResume.BridgeReceiver.Accept | mc-discord-bot/src/discord/bridge.rs:989-1004 | an event passes unless its sequence is not above the last, which then follows it |
| StreamResume.BridgeReceiver.ReceiveBatch | mc-discord-bot/src/discord/bridge.rs:262-282 | a turn takes waiting events until the cap is kept or none is left, and keeps exactly the filter's output |
| StreamResume.FilterIsMonotone | mc-discord-bot/src/discord/bridge.rs:989-1004 | whatever arrives, the stamped events passed on strictly increase |
| StreamResume.FilterIsExact | mc-discord-bot/src/discord/bridge.rs:989-1004 | what the filter passes is exactly the events without a stamp and those above every stamp before them, in order |
| StreamResume.IncreasingPasses | mc-discord-bot/src/discord/bridge.rs:989-1004 | an increasing stretch above the last sequence passes untouched |
| StreamResume.Subscriber.constructor | mc-stream/src/lib.rs:722 | the counter starts at the configured resume point or 0 |
| StreamResume.Subscriber.Hello | mc-stream/src/lib.rs:835-842 | the hello carries the counter as resume point, none when it is 0 |
| StreamResume.Subscriber.ReadReady | mc-stream/src/lib.rs:886-898 | a ready behind the sent resume point clears the counter and changes nothing else |
| StreamResume.Subscriber.ReadEvent | mc-stream/src/lib.rs:874-885 | every event is forwarded, and the counter never falls |
| StreamResume.MoveKeepsWorld | mc-stream/src/lib.rs:835-898 | every move of gateway, connection, subscriber and bridge keeps the joint invariant when the clock is ahead |
| StreamResume.SequencesSurviveRestarts | terminal-client/src/hub.rs:518-521 | with such a clock, sequences of all incarnations strictly increase, the reset is never taken, forwarded events increase and the filter drops none |
| StreamResume.ResetLastsUntilFirstEvent | mc-stream/src/lib.rs:874-898 | over every play, after a reset the next hello has no resume point if and only if no event was read on the reset connection; otherwise it resumes after the last one read |
| StreamResume.ResetIsUndone | mc-stream/src/lib.rs:874-898 | a play in which one event read after the reset makes the next hello resume after it |
| StreamResume.ResetServesOldPoint | mc-stream/src/lib.rs:835-898 | a reset connection is still served above the old resume point only |
| StreamResume.HelloAsks | mc-stream/src/lib.rs:835-842 | a hello asks for what lies above the counter, or for the newest `replay` events while it is 0 |
| StreamResume.ReadyDecides | mc-stream/src/lib.rs:886-898 | over every play a connection's ready resets the counter if and only if the gateway had handed out a sequence at the hello and it is behind the counter |
| StreamResume.ForwardsWhatItReads | mc-stream/src/lib.rs:874-885 | over every play, from one hello to the next the subscriber forwards exactly the first events written to its socket, as many as it has read |
| StreamResume.BridgeAlwaysRises | mc-discord-bot/src/discord/bridge.rs:989-1004 | without any assumption the bridge hands on a strictly increasing sequence |
| StreamResume.HandsOnExactly | mc-discord-bot/src/discord/bridge.rs:989-1004 | over every play the bridge hands on exactly the events taken that have no stamp or one above every stamp taken before |
| ExactlyOnce.StepContinues | terminal-client/src/hub.rs:782-872 | a gateway step that opens no hole keeps what is written consecutive from the resume point |
| ExactlyOnce.HolesAreLosses | terminal-client/src/hub.rs:782-872 | the steps said to open a hole are exactly those after which the next wanted position counts as lost |
| ExactlyOnce.GaplessIff | terminal-client/src/hub.rs:782-872 | in every interleaving a consumer that resumed is written one unbroken stretch of the log, from its resume point to its last event, if and only if no position of it is in one of the three named losses |
| ExactlyOnce.MoveKeepsClean | mc-stream/src/lib.rs:835-885 | so does every move of the whole system |
| ExactlyOnce.ExactlyOnceResume | mc-stream/src/lib.rs:835-885 | from any log and any resume point in it, over all connections, cut anywhere, with no step that opens a hole, everything forwarded is one contiguous run of the log, starting right after the resume point if there is one |
| LineFraming.FindNewline | terminal-client/src/hub.rs:42 | the position of the first newline, or the length |
| LineFraming.LineReader.Consume | terminal-client/src/hub.rs:44-58 | consuming drops exactly that many bytes of the stream |
| LineFraming.LineReader.ReadLine | terminal-client/src/hub.rs:31-60 | one read returns the first line of the remaining bytes and leaves the rest, or refuses exactly when unterminated reads pass the cap; no unterminated line it returns exceeds the cap |
| LineFraming.LineReader.ReadAll | terminal-client/src/hub.rs:31-60 | if all lines fit, repeated reads return the newline split for every chunking; without refusal they return it on any input |
| LineFraming.CapIsExact | terminal-client/src/hub.rs:49-55 | a first line is accepted under every chunking if and only if it fits the cap |
| LineFraming.OverCapIsExact | terminal-client/src/hub.rs:49-55 | with reads of at most b bytes some chunking lets a first line pass if and only if it is at most b - 1 bytes over the cap, or not over it where no newline ends it |
| LineFraming.FramesRoundTrip | mc-stream/src/lib.rs:474-478 | concatenated frames are read back unchanged if and only if none ends in a carriage return |
| LineFraming.EitherEndingReads | terminal-client/src/hub.rs:31-60 | newline-free bodies ended by LF or CR LF, and an unended rest, are read back as they are, a body losing a CR of its own only before a bare LF; all fit if and only if none passes the cap with its CR |
| PresenceWriter.LastWriteWins | azalea-bot/src/db.rs:899-915 | whatever order events come in, a key ends with its newest state, the last of those at one time |
| PresenceWriter.MarkersAreNotLogged | azalea-bot/src/db.rs:917-924 | tab-list appearances and disappearances never reach the event log |
| PresenceWriter.MergeFold | azalea-bot/src/db.rs:887-995 | the per-batch map followed by the guarded upsert equals applying the events one at a time |
| PresenceWriter.BatchPresence | azalea-bot/src/db.rs:876-968 | a batch logs its rows, and updates presence exactly when it logged one |
| PresenceWriter.LogGains | azalea-bot/src/db.rs:887-968 | for every row a batch adds as many copies to the log as it holds events of a known player, no tab marker, with that time, player, first kind and source letter, and session if it fits the column |
| PresenceWriter.LoudIff | azalea-bot/src/db.rs:917-938 | a batch logs something if and only if it holds an event of a known player that is no tab marker |
| PresenceWriter.PresenceGains | azalea-bot/src/db.rs:887-995 | a batch that logs something leaves a player as the newest tab report says, gone after a leave or disappearance and present after any other, dated by it; without a report that is new enough, or in a batch that logs nothing, the entry stays |
| PresenceWriter.BatchIsFaithfulIff | azalea-bot/src/db.rs:936-938 | a batch's presence is what one-at-a-time would give if and only if it logs a row or carries nothing newer |
| PresenceWriter.QuietBatchIsDropped | azalea-bot/src/db.rs:936-938 | a lone disappearance is dropped and the player stays listed |
| PresenceWriter.SplitIndependent | azalea-bot/src/db.rs:876-995 | however the stream is cut into batches, the log gets every row, and presence ends as if the events of the batches that log a row had been applied one at a time |
| PresenceWriter.SplitIsFaithfulIff | azalea-bot/src/db.rs:936-938 | presence ends as if every event had been applied, if and only if each key's newest event in the batches that log a row leaves what its newest event of all does |
| PresenceWriter.RestartRetiresEveryone | azalea-bot/src/db.rs:1004-1037 | after a restart nobody of the session is present, other sessions are untouched, each retired player got exactly one leave and nobody else a row |
| PresenceWriter.RestartEntries | azalea-bot/src/db.rs:1004-1037 | entry by entry: whoever was present in the session is gone as of the restart, every other entry is untouched |
| PresenceWriter.PresentAfterReconcile | azalea-bot/src/db.rs:1056-1169 | after a reconcile the present players are the list less those known to have left later |
| PresenceWriter.SnapshotIsPresence | azalea-bot/src/db.rs:1056-1169 | the present set equals the snapshot if and only if no listed player is known to have left later |
| PresenceWriter.ReconcileLog | azalea-bot/src/db.rs:1085-1169 | row by row: one join per listed player whose last event is no join, one leave per retired player, nothing else |
| PresenceWriter.ReconcileEntries | azalea-bot/src/db.rs:1056-1169 | entry by entry: the listed are present as of the list unless newer news is there, the other present ones gone as of it, every other entry untouched |
| PresenceWriter.IdsAreKnown | azalea-bot/src/db.rs:1073-1081 | a reconcile lists the players the dictionary knows, each as often as it is named |
| PresenceWriter.ReconcileIdempotent | azalea-bot/src/db.rs:1056-1169 | reconciling against the same list again writes no log row |
| PresenceWriter.ReconcileCorrect | azalea-bot/src/db.rs:1056-1169 | for a snapshot later than every stored row: whichever answers the database gives, table and log agree with the list and a repetition writes nothing, if and only if no listed player's newest join and leave share one timestamp and none is known to have left later |
| PresenceWriter.RestartRetiresWholeBatch | azalea-bot/src/db.rs:769-773 | a restart anywhere in a batch retires everyone the batch marked present, later joins included |
| PresenceWriter.RestartOrderIff | azalea-bot/src/db.rs:769-773 | writing restarts after events leaves the same players of a session present as arrival order would, if and only if nobody's newest event since the session's last restart says present |
| PresenceWriter.FlushOrderIff | azalea-bot/src/db.rs:769-773 | a flush of any events and restarts leaves the players of a session present that arrival order would, unless, and only unless, events after the session's last restart bring somebody back, or nothing is logged although the events say something new |
| PresenceWriter.RestartDropsArrival | azalea-bot/src/db.rs:769-773 | a join flushed together with the restart before it is retired with the others |
| PresenceWriter.Flusher.UpsertPresence | azalea-bot/src/db.rs:974-995 | row by row the newest state of a key wins; the statement fails, changing nothing, if and only if a key it wrote comes again |
| PresenceWriter.Flusher.WriteEvents | azalea-bot/src/db.rs:876-968 | the loop and its statements change the tables as specified, early return included |
| PresenceWriter.Flusher.WriteRestarts | azalea-bot/src/db.rs:1004-1037 | the restarts of a batch in order |
| PresenceWriter.Flusher.LastSeen | azalea-bot/src/db.rs:1085-1125 | every candidate gets a latest join or leave kind, whichever the database picks on a tie |
| PresenceWriter.Flusher.WriteRejoin | azalea-bot/src/db.rs:1056-1169 | one reconcile as specified; fails, changing nothing, if and only if it would mark a player twice |
| PresenceWriter.Flusher.WriteRejoins | azalea-bot/src/db.rs:1056-1169 | the reconciles in order up to the first that fails; it stops nowhere else |
| PresenceWriter.Flusher.WriteBatch | azalea-bot/src/db.rs:769-773 | a flush is events, then restarts, then reconciles, whatever the arrival order, with database answers that are all valid; it stops early only at a reconcile that fails |
| TabPresence.Services.NoteJoin | azalea-bot/src/main.rs:1283-1319 | a new listed player becomes online with one arrival row; a known one only changes name |
| TabPresence.Services.NoteLeave | azalea-bot/src/main.rs:1321-1339 | an online player is removed, with a departure row unless suppressed |
| TabPresence.Services.HandleInfoUpdate | azalea-bot/src/main.rs:1343-1367 | the entries of an info packet one after the other |
| TabPresence.Services.HandleInfoRemove | azalea-bot/src/main.rs:1369-1378 | removed ids are unhidden and leave |
| TabPresence.Services.ClearPresence | azalea-bot/src/main.rs:1219-1241 | both lists and the settle watch are reset |
| TabPresence.Services.Retire | azalea-bot/src/main.rs:1395-1421 | every tracked player missing from the tab list leaves once, in some order |
| TabPresence.Services.MaybeReconcile | azalea-bot/src/main.rs:1383-1454 | one tick: gate, retirement, settle watch; fires exactly when it becomes done |
| TabPresence.StepKeeps | azalea-bot/src/main.rs:1219-1454 | every call keeps the joint invariant of lists, rows and settle watch |
| TabPresence.TabListSafety | azalea-bot/src/main.rs:1283-1421 | over every run nobody is online and hidden, online means a last row that is an unclosed arrival, and every departure follows such an arrival |
| TabPresence.ArrivalsAreClosed | azalea-bot/src/main.rs:1283-1339 | two arrival rows of a player have a departure or clear between them |
| TabPresence.ReconcileIsExact | azalea-bot/src/main.rs:1395-1421 | after a pass the tracked players are exactly those tracked before and still in the tab list |
| TabPresence.SettleFiresExactly | azalea-bot/src/main.rs:1429-1453 | over every run the settle reconcile fires exactly at the call that completes the first nine equal non-zero sizes of the tracked list in a row, as the comparing ticks since the last clear found it |
| TabPresence.ReadingsAreSizes | azalea-bot/src/main.rs:1383-1429 | what the settle watch reads is the number of tracked players just before each comparing tick, every hundredth, since the last clear |
| TabPresence.HiddenIsUnlisted | azalea-bot/src/main.rs:1343-1378 | over every run the hidden players are those last reported unlisted, and neither removed nor cleared since |
| TabPresence.OwnBotIff | azalea-bot/src/main.rs:1043-1050 | the logger's own name is known in any letter case |
| TabPresence.PublicRowsAreEarned | azalea-bot/src/main.rs:1283-1339 | over every run, the call that put out a row was not suppressed, and the row is a public join if and only if the server's chat does not own joins, the login grace is over and the player is not the logger itself, a public leave if and only if the same holds without the grace |
| OnlineTable.TableFollows | azalea-bot/src/db.rs:887-1037 | row by row the present set follows the fold of the written rows: an arrival adds a name, a departure removes it, a restart empties it |
| OnlineTable.TableIsNameFold | azalea-bot/src/db.rs:769-773 | over every run of calls, other writes and flushes at any moment, with nothing assumed about names or suppression, the table with what is pending holds at every moment exactly the names the calls' rows leave, if and only if no flush loses |
| OnlineTable.MoveKeepsIff | azalea-bot/src/main.rs:1283-1421 | if the table with what is pending shows the tracked names before a move, it does after it unless, and only unless, the move is a call that renames a tracked player (with others not bearing both names), loses one while suppressed (with no other bearing the name) or removes one of two who share a name, or a flush that loses |
| OnlineTable.OnlineNowIsTabList | azalea-bot/src/main.rs:1283-1421 | over every run of calls, other writes and flushes at any moment, restarts and new sessions included, the table with what is pending shows the tracked names at every moment, if and only if no move is one of those; the table itself shows them whenever the writer has caught up |
| OnlineTable.SettleRestores | azalea-bot/src/main.rs:1256-1281 | a settle reconcile fails if and only if two of the players it reports share a name; otherwise, whatever parted table and tab list before, it brings them together, if and only if the logger's own tracked name is also another tracked player's |
| OnlineTable.QuietFlushLeavesGhost | azalea-bot/src/db.rs:936-938 | a run with none of the three calls in which a player who left stays listed, because the flush logs nothing |
| OnlineTable.RenameLeavesGhost | azalea-bot/src/main.rs:1299-1303 | a player renamed while online leaves under the new name and stays present under the old one |
| Standby.SettingsLeaveRoom | azalea-bot/src/main.rs:437-446 | for all configured values the clamp is well formed and the interval is at most half the takeover time |
| Standby.SettingsAreHonoured | azalea-bot/src/main.rs:437-446 | settings within the bounds are taken as they are, others meet the nearest bound, and without any it is 45 and 15 seconds |
| Standby.PrimaryKeeps | azalea-bot/src/standby.rs:75-121 | every step keeps what the table may say about the primary |
| Standby.StandbyKeeps | azalea-bot/src/standby.rs:75-121 | every step keeps what the gate may be |
| Standby.NeverJudgedStale | azalea-bot/src/db.rs:433-454 | in every run the liveness answer is right once the primary's last change is older than the lag, so a heartbeating connected primary is never judged stale |
| Standby.JudgedRightIff | azalea-bot/src/db.rs:433-454 | the answer is right in every run with every standby, if and only if the primary's interval and delay together stay below the takeover time |
| Standby.GateConverges | azalea-bot/src/standby.rs:75-122 | one standby turn later the standby logs if and only if it is connected and the primary is not |
| Standby.DeadPrimaryIsReplaced | azalea-bot/src/standby.rs:80-101 | a crashed primary is replaced within the takeover time plus one standby turn |
| Standby.BothLogBriefly | azalea-bot/src/standby.rs:80-101 | after the primary is back both log for at most one turn of each |
| Standby.OverlapIsTwoIntervals | azalea-bot/src/standby.rs:80-101 | with delays no longer than an interval and no failed check since, both log for at most the sum of the two intervals and the two delays |
| Standby.FailuresKeepGate | azalea-bot/src/standby.rs:102-105 | over any stretch of a run in which no check is answered the gate does not change |
| Standby.Gate.Turn | azalea-bot/src/standby.rs:75-121 | only a definite answer flips a standby's gate, a primary's never changes, and the heartbeat carries the new gate |
| Standby.BeatIsSnapshot | azalea-bot/src/standby.rs:75-121 | over every run a heartbeat row tells of the connection when the turn began and is dated by its commit |
| Standby.TurnUsesWhatItSaw | azalea-bot/src/standby.rs:75-105 | over every run the gate after a standby's turn is open exactly if it was connected when the turn began and no connected primary's row was younger than the takeover time when it asked; a failed question leaves it |
| Standby.ShutdownIsSeenAtOnce | azalea-bot/src/db.rs:456-468 | over every run, after a clean shutdown and until the next start the table says gone, and one standby turn opens the gate |
| Standby.CrashLeavesRow | azalea-bot/src/standby.rs:106-121 | a crash leaves the last row written |
| Standby.StartSaysGone | azalea-bot/src/main.rs:244-252 | a primary that starts says it is gone until its first heartbeat |
| FeedCursor.PageIsWindow | mc-discord-bot/src/database/mod.rs:697-723 | a page is all eligible rows up to its last id, so no limit skips a row |
| FeedCursor.PageIsWaiting | mc-discord-bot/src/database/mod.rs:697-723 | a page is the rows of the wanted kinds above the cursor and at most an hour older than the cursor's row, lowest ids first, as many as the limit allows |
| FeedCursor.SortPart | mc-discord-bot/src/discord/bridge.rs:718-720 | merging chat and presence by time keeps each table's own order |
| FeedCursor.SortIsPermutation | mc-discord-bot/src/discord/bridge.rs:718-720 | the merged rows are the fetched ones in time order |
| FeedCursor.Bridge.DeliverFeed | mc-discord-bot/src/discord/bridge.rs:666-743 | one poll, with every early return a failed statement causes |
| FeedCursor.LivePollMoves | mc-discord-bot/src/discord/bridge.rs:686-743 | an open feed's poll: a failed read or hand-on changes nothing, otherwise both pages go out and each cursor ends on its page's last row, the presence cursor staying behind if the save of a moved chat cursor fails |
| FeedCursor.PausedPollMoves | mc-discord-bot/src/discord/bridge.rs:667-684 | a paused feed's poll hands on nothing and raises both cursors to the newest ids found, never back; a failed query changes nothing, a failed save of a raised chat cursor leaves the presence cursor |
| FeedCursor.PausedRowsStayUnposted | mc-discord-bot/src/discord/bridge.rs:667-684 | over every run no later page holds a row at or below the ids a paused poll found and saved |
| FeedCursor.StepKeeps | mc-discord-bot/src/discord/bridge.rs:666-743 | every step keeps the accounting of both tables and moves no cursor back |
| FeedCursor.CursorsNeverDecrease | mc-discord-bot/src/discord/bridge.rs:666-743 | over any run with any failures no cursor decreases |
| FeedCursor.ChatExactlyOnce | mc-discord-bot/src/discord/bridge.rs:666-743 | over any run the chat rows handed on are exactly those the open feed read past, none twice; they go out in id order if and only if in each page times follow ids, and are all wanted rows up to the cursor if and only if no wanted row was passed over while paused or an hour late |
| FeedCursor.PresenceOnceIff | mc-discord-bot/src/discord/bridge.rs:723-741 | over any run every join/leave row the open feed moved over was handed on, and none twice if and only if no row of a page handed on while saving the chat cursor failed was fetched again by a later poll |
| FeedCursor.LostPageReturns | mc-discord-bot/src/discord/bridge.rs:723-741 | such a page comes back: as long as the presence cursor stays where it is, whatever else happens, a poll that hands on begins with the same row |
| PresenceDedup.KeyTellsPlayersApart | mc-discord-bot/src/discord/bridge.rs:905-921 | for names without colons, keys are equal if and only if kind, host and player are |
| PresenceDedup.KeyIff | mc-discord-bot/src/discord/bridge.rs:905-921 | a row has a key if and only if its kind's first letter is j or l in either case and it names somebody |
| PresenceDedup.KindIsFirstLetter | mc-discord-bot/src/database/models.rs:62-73 | a kind is a join or a leave by its first letter, in either case |
| PresenceDedup.SamePlayerIff | mc-discord-bot/src/discord/bridge.rs:905-921 | names agree if and only if they do in all but letter case and white space around them, the subject's name going before the sender's |
| PresenceDedup.PruningIsInvisible | mc-discord-bot/src/discord/bridge.rs:925-936 | with non-decreasing time the pruned map keeps a row if and only if no kept row with its key lies within 20 seconds before it |
| PresenceDedup.KeptAreApart | mc-discord-bot/src/discord/bridge.rs:925-936 | kept rows with equal keys are over 20 seconds apart |
| PresenceDedup.Recent.Unique | mc-discord-bot/src/discord/bridge.rs:925-936 | prune, look up, insert |
| PresenceDedup.Recent.DropDuplicates | mc-discord-bot/src/discord/bridge.rs:759-765 | a batch yields exactly the rows the unpruned rule keeps, in order |
| FeedDelivery.Delivery.DeliverRouted | mc-discord-bot/src/discord/bridge.rs:745-800 | the filter takes note of the whole batch before the routing table is read; if that read fails nothing is posted and the note is kept |
| FeedDelivery.RetryPostsIff | mc-discord-bot/src/discord/bridge.rs:757-775 | a row the filter had kept comes again, among any other rows; if no row of its key was kept in between, it is kept again if and only if it is no join or leave, or comes over 20 seconds later |
| FeedDelivery.RetriedBatch | mc-discord-bot/src/discord/bridge.rs:745-775 | of the rows a failed delivery had let through, a retry within 20 seconds, with any new rows mixed in, lets exactly those through again that are no join or leave |
| RateLimit.RateLimiter.Wait | tools/server-seeker/src/main.rs:650-666 | one call, its remaining time never negative; a rate of 0 changes nothing |
| RateLimit.CallMeans | tools/server-seeker/src/main.rs:650-666 | from a second after the window's start on a call opens a new window at once; before that it counts, and waits until the second is over if the window is spent |
| RateLimit.ProbesAreBounded | tools/server-seeker/src/main.rs:650-666 | every call passes, and no half-open second sees more than twice the rate |
| RateLimit.WaitsOnlyWhenSpent | tools/server-seeker/src/main.rs:650-666 | inside a window a call waits if and only if the last n calls all passed in it |
| RateLimit.WindowHoldsAtMostN | tools/server-seeker/src/main.rs:650-666 | a window lets at most n calls through |
| RateLimit.SpanOfTwoWindows | tools/server-seeker/src/main.rs:650-666 | any 2n + 1 passes in a row span at least one window length |
| RateLimit.SayLimiter.Admit | terminal-client/src/hub.rs:815-828 | a say frame is relayed while the window's count is within the allowance, and one warning is due per window |
| RateLimit.FrameMeans | terminal-client/src/hub.rs:815-828 | a frame counts in its window, or opens a new one from a minute after the start on |
| RateLimit.SaysAreBounded | terminal-client/src/hub.rs:807-831 | no half-open minute relays more than twice the allowance |
| RateLimit.DropsOnlyWhenSpent | terminal-client/src/hub.rs:807-831 | a frame is dropped if and only if the last n relayed ones all belong to its window |
| GreedyPacking.PackingLossless | mc-discord-bot/src/presentation/embeds.rs:185-202 | the groups concatenate to the rows in order, each non-empty and within both limits |
| GreedyPacking.PackingMinimal | mc-discord-bot/src/presentation/embeds.rs:185-202 | no contiguous partition within the limits has fewer groups |
| FeedPacking.EscapeMd | mc-discord-bot/src/presentation/formatting.rs:182-191 | the loop escapes every markup character of the one-line text |
| FeedPacking.EscapeReadsBack | mc-discord-bot/src/presentation/formatting.rs:182-191 | an escaped text reads back unchanged |
| FeedPacking.EscapedIsPlain | mc-discord-bot/src/presentation/formatting.rs:182-191 | no markup character of an escaped text is live, and only markup characters are escaped |
| FeedPacking.OneLineIsWords | mc-discord-bot/src/presentation/formatting.rs:171-173 | a text on one line is its words with one space between each two |
| FeedPacking.ShownWholeIff | mc-discord-bot/src/presentation/formatting.rs:149-224 | a one-line name or body, escaped and then clamped, reads back whole if and only if its characters and its markup characters together stay within the limit |
| FeedPacking.Clamp | mc-discord-bot/src/presentation/formatting.rs:149-155 | a text within the limit is unchanged, a longer one cut to the limit with an ellipsis |
| FeedPacking.LineFits | mc-discord-bot/src/presentation/embeds.rs:163-183 | every rendered line fits one embed |
| FeedPacking.FeedLineSays | mc-discord-bot/src/presentation/embeds.rs:163-183 | a chat line shows its time, its author in bold, or its subject if it has none, and its text; a whisper its author and the text, anything else the text, in italics |
| FeedPacking.DigitsReadBack | mc-discord-bot/src/presentation/formatting.rs:226-228 | numbers are written in decimal without leading zeros and read back |
| FeedPacking.BytesAreUtf8 | mc-discord-bot/src/presentation/embeds.rs:185-202 | a text's length is that of its UTF-8 encoding |
| FeedPacking.PackFeed | mc-discord-bot/src/presentation/embeds.rs:185-202 | the loop computes the greedy packing |
| FeedPacking.FeedPackingOptimal | mc-discord-bot/src/presentation/embeds.rs:163-202 | for every feed the packing is lossless, within limits and minimal |
| FeedPacking.JoinLines | mc-discord-bot/src/presentation/formatting.rs:157-169 | the loop keeps lines while they fit and counts the rest |
| FeedPacking.JoinedSays | mc-discord-bot/src/presentation/formatting.rs:157-169 | a joined message splits into the most lines that fit and, if that is not all, a last line that counts the others |
| FeedPacking.TotalIsBytes | mc-discord-bot/src/presentation/formatting.rs:157-169 | what the joiner counts is the bytes of the joined text and one more |
| FeedPacking.KeepsAllExactly | mc-discord-bot/src/presentation/formatting.rs:157-169 | no line is cut if and only if the total length fits |
| FeedPacking.PackedNeverCut | mc-discord-bot/src/presentation/embeds.rs:204-221 | joining a packed group never truncates it |
| ChannelExport.NewerIsSuffix | mc-discord-bot/src/bin/discord-scrape.rs:321-419 | the messages above an id are a suffix of the channel |
| ChannelExport.OlderIsPrefix | mc-discord-bot/src/bin/discord-scrape.rs:321-419 | the messages below an id are a prefix of the channel |
| ChannelExport.ForwardTurn | mc-discord-bot/src/bin/discord-scrape.rs:336-405 | one forward page keeps the result a gapless prefix of the answer, and moves on or ends with all of it |
| ChannelExport.BackwardTurn | mc-discord-bot/src/bin/discord-scrape.rs:336-405 | one backward page keeps the result a gapless suffix of the answer, and moves on or ends with all of it |
| ChannelExport.FetchMessages | mc-discord-bot/src/bin/discord-scrape.rs:321-419 | the loop ends with the first messages of the range when an after id is set, otherwise with the last before the bound, ascending, for every page alignment |
| ChannelExport.ExportedIsRange | mc-discord-bot/src/bin/discord-scrape.rs:321-419 | an export is the messages strictly between the bounds, all without a limit, else the oldest if there is a lower bound and the newest if not |
| StatusCodec.ReadVarIntLoop | tools/server-seeker/src/ping.rs:181-199 | the reading loop computes the specified value, offset or error |
| StatusCodec.WriteVarIntLoop | tools/server-seeker/src/ping.rs:201-213 | the writing loop appends the encoding of a non-negative value |
| StatusCodec.EncodingIs | tools/server-seeker/src/ping.rs:201-213 | an encoding holds seven bits a byte, lowest first, every byte but the last marked to continue, and no more bytes than needed |
| StatusCodec.OrAddsDigit | tools/server-seeker/src/ping.rs:190 | seven bits or-ed in above the bits read so far add up in the 32-bit word |
| StatusCodec.ShlIsShift | mc-discord-bot/scripts/presence-truth.ts:46 | shifting a digit left by 7, 14, 21, 28 or 35 on a 32-bit word takes the distance modulo 32 and drops the bits that leave the word |
| StatusCodec.VarIntRoundTrip | tools/server-seeker/src/ping.rs:181-213 | at any offset and with any trailing bytes a written VarInt reads back, consuming its 1 to 5 bytes |
| StatusCodec.ScriptWriteLoop | mc-discord-bot/scripts/presence-truth.ts:13-28 | the script's loop over unsigned shifts writes the encoding of the value's 32 bits, and ends |
| StatusCodec.ScriptReadLoop | mc-discord-bot/scripts/presence-truth.ts:40-51 | the script's loop reads back every 32-bit value written at the offset, and agrees with the other reader if and only if not all of five bytes continue, or a sixth also does |
| StatusCodec.ScriptRoundTrip | mc-discord-bot/scripts/presence-truth.ts:13-51 | the same for all 32-bit values in the script |
| StatusCodec.ReadersAgree | mc-discord-bot/scripts/presence-truth.ts:40-51 | the two readers agree if and only if not all of five bytes continue, or a sixth also does |
| StatusCodec.StringRoundTrip | tools/server-seeker/src/ping.rs:215-230 | a written string reads back |
| StatusCodec.StatusRoundTrip | tools/server-seeker/src/ping.rs:93-148 | parsing a framed written string returns it, whatever follows |
| StatusCodec.PacketIdDecides | tools/server-seeker/src/ping.rs:93-108 | a framed packet with any other id than 0 is refused |
| StatusCodec.ParsesIff | tools/server-seeker/src/ping.rs:93-108 | a buffer parses to a text if and only if it begins with a whole packet of id 0 that holds that text whole |
| StatusCodec.ParseExtends | tools/server-seeker/src/ping.rs:93-108 | once a prefix parses, every extension parses to the same result |
| StatusCodec.ReadStatus | tools/server-seeker/src/ping.rs:110-128 | reading in any pieces: the first piece after which the whole parses, or passes the size limit, decides; it returns what the whole parses to and never misses a parse within the limit |

## Left out

- GatewayHub.Hub.Ingest: one producer at a time; with two producers interleaved the ring need not be sorted.
- ConsumerConnection.LossAccounting: sockets, write timeouts and pings are left out; a cut ends the connection at any step.
- StreamResume.SequencesSurviveRestarts: sequences are unbounded; the 64-bit counter's overflow is left out. Keys, key limits and eviction of idle hubs appear only as restarts.
- ExactlyOnce.ExactlyOnceResume: one gateway incarnation.
- LineFraming.LineReader.ReadLine: bytes only; lossy UTF-8 decoding and JSON are left out.
- PresenceWriter.Flusher.WriteBatch: names are already dictionary ids, None where the dictionary has none; chat rows, the players table and failed statements other than a repeated key are left out.
- PresenceWriter.FlushOrderIff: events and restarts only; a batch that mixes a reconcile with later events follows phase order.
- TabPresence.Services.NoteJoin: the cleaned name is an input; cleaning rests on the chat classifier, which is left out. One moment per packet.
- TabPresence.Services.MaybeReconcile: firing only; collecting the names for the writer is left out.
- OnlineTable.OnlineNowIsTabList: rows reach the writer in order and with non-decreasing times, and session numbers fit their column; flushes with a settle reconcile are SettleRestores', one at a time. A session that a login or disconnect opens is new to the tables.
- Standby.GateConverges: one primary, one standby that keeps running, one clock; a crash drops a statement under way.
- FeedCursor.ChatExactlyOnce: one process; after a restart the cursor is the last saved one, so a failed save repeats rows.
- FeedCursor.Bridge.DeliverFeed: whether the hand-on succeeds is an input. The filter in it is FeedDelivery's; embeds that fail to post never hold back the cursor and are left out.
- FeedCursor.PresenceOnceIff: its condition compares the pages fetched; it is not reduced to the polls alone, since a paused poll may move the cursor into the middle of a page.
- PresenceDedup.KeyTellsPlayersApart: ASCII white space only.
- RateLimit.SayLimiter.Admit: the count is unbounded.
- FeedPacking.FeedPackingOptimal: the row's body, author and subject are inputs; how they are chosen and reconstructed is left out.
- ChannelExport.FetchMessages: a channel that does not change during the export; retries and progress output are left out.
- StatusCodec.WriteVarIntLoop: non-negative values; on a negative one the Rust loop would not end.
- PostgreSQL views, archive functions and rollups, the chat classifier and backfill, Discord commands, plugin probe, portal walk, configuration: outside the model.
- Watch alerts: hits and the newest id are two separate queries, so no completeness claim holds.
- Connection limits: the check and the count are separate steps, so they are no hard bound.
