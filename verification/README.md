# MagickVoice Sentinel: a verified model

Sentinel records collections calls on agents' Windows machines, spools the audio locally, ships it to a
gateway, and files it in object storage for transcription, compliance review and expiry. This project models
the parts of that path where a mistake loses evidence or keeps it too long, and proves what they promise:

- **Capture** (`Detector`, `DetectorRuns`, `DetectorAnswers`, `Encoder`, `EncoderRuns`, `Pipeline`,
  `PipelineRuns`, `PipelineDrops`, `PipelineVoice`, `PipelineStream`): the call-detection state machine and every
  transition it returns, the segmenting encoder, the pipeline that puts them together, what it lets the detector
  hear, what it hands over, and what becomes of it when its caller discards a transition.
- **Spool and delivery** (`SpoolTables`, `Spool`, `Resume`, `Gateway`, `Delivery`, `AckRuns`): the on-disk
  spool with its eviction and acknowledgement rules, reconnect planning, the gateway's channel watermark, and
  the whole protocol as one state machine over a network that loses, repeats and reorders.
- **Codecs** (`Wire`, `Frames`, `Der`, `Csr`): media records, segment payloads, the DER writer and the
  certificate request, each against an independent reader.
- **Server jobs** (`Coverage`, `ObjectKeys`, `Retention`, `Findings`): reconciliation against the dialer's
  records, object keys, the nightly purge, and re-runs that must not undo what people did.
- **Watchdog** (`Watchdog`): when the service relaunches an agent, and the loop that drives it.

`Prelude` and `Media` hold shared vocabulary. Code that updates state in place is a class or a loop proved
against a specification function; the theorems are about the specification. Randomness, clocks, voice
decisions, Opus, signatures, calendars and storage failures are parameters.

## What does not hold as written

These are properties the code or its documentation suggests, with an input that breaks each and the exact
condition under which it does hold.

- Batched eviction equals one-row-at-a-time eviction, and never takes a newest row that fits, exactly while
  payloads are at most 3,003 bytes (`SpoolTables.BatchedIsShortestIff`, `SpoolTables.NewestSurvivesIff`).
- The gateway never repeats an acknowledgement, although a comment in
  `server/gateway/internal/ingest/session.go:315-316` says a client resending an acknowledged range is told
  again. Without new audio, a channel is told anything more if and only if the row just above its persisted
  watermark is still spooled or was ever sent (`AckRuns.ToldAgainIff`). So after a lost final ack, and after an
  eviction that opens a hole there, rows stay in the spool until a cap evicts them, durable as they are, and no
  reconnect helps (`AckRuns.StuckIsReachable`, `AckRuns.HoleIsReachable`).
- Resume planning and acknowledgement agree except at sequence number 2^32 - 1
  (`Resume.ResumeAgreesWithAcks`).
- Greedy coverage matching is a maximum when each agent's rows and calls are in order, is not when either list
  is out of order (`Coverage.UnsortedExportMissesTheMaximum`, `Coverage.UnsortedCapturesMissTheMaximum`), and is
  never worse than half of it (`Coverage.GreedyIsHalfOptimal`).
- A captured call is counted once if and only if no two dialer rows name the same known id and the window rule
  takes no call that a row names (`Coverage.CountedOnceIff`).
- An arm skips the detector's debounce if and only if it is the session going active too soon after a hangup
  with a reopen pending from an earlier user change (`DetectorRuns.ArmIsRushedIff`,
  `DetectorRuns.StaleReopenSkipsDebounce`).
- A glitch gap is flagged on every second it reaches exactly when it ends within the second it began in
  (`EncoderRuns.GapFlaggedIff`).
- `client/sentinel-agent/src/agent.rs:189-194`, `:207-217` and `:374-382` discard the transitions that
  notifications return. A discarded transition lets a call's numbers go wrong if and only if the channel's
  stream is open and it is a call's end, or an arm after the encoder has given out numbers
  (`PipelineDrops.DropBreaksIff`). Dropped arms lose number zero (`PipelineRuns.DroppedArmLosesZero`); dropped
  ends give it out twice (`PipelineDrops.DroppedEndRepeatsZero`).
- The purge loop ends if and only if fewer expired rows refuse deletion than fit a batch
  (`Retention.RetentionJob.AudioLoop`, `Retention.NeverEnds`).
- A flag is never deleted if and only if people's edits show on it at every write that misses it
  (`Findings.SurvivesIff`); one dismissed and reopened without a name or a note is forgotten
  (`Findings.UnsignedReopenIsForgotten`, `Findings.TouchedIff`).

## Model

| member | source | states |
|---|---|---|
| `SpoolTables.DropOldestIsPrefix` | client/sentinel-core/src/spool.rs:364-405 | eviction removes exactly a prefix of the (created, call, channel, seq) order and leaves every other row as it was |
| `SpoolTables.ShortestIsLeast` | client/sentinel-core/src/spool.rs:375-395 | the reference count is the least number of oldest rows whose loss brings the spool under its size cap |
| `SpoolTables.BatchedIsShortest` | client/sentinel-core/src/spool.rs:375-395 | with payloads of at most 3,003 bytes the batched loop deletes exactly the shortest sufficient prefix |
| `SpoolTables.BatchOvershoots` | client/sentinel-core/src/spool.rs:375-395 | for every larger payload cap there are rows on which a batch deletes more than was needed |
| `SpoolTables.BatchedIsShortestIff` | client/sentinel-core/src/spool.rs:375-395 | batched and shortest eviction agree on all inputs with payloads up to a cap, if and only if the cap is at most 3,003 bytes |
| `SpoolTables.BatchedIsSufficient` | client/sentinel-core/src/spool.rs:375-395 | whatever the payloads, the size loop ends under the cap |
| `SpoolTables.OvershootUnderOneBatch` | client/sentinel-core/src/spool.rs:375-395 | whatever the payloads, it deletes fewer than 1,000 rows more than necessary |
| `SpoolTables.AgeCutIsPrefix` | client/sentinel-core/src/spool.rs:367-373 | the age cap also removes a prefix of the same order |
| `SpoolTables.EnforcedIsPrefix` | client/sentinel-core/src/spool.rs:364-405 | both caps together remove exactly the reported number of rows, oldest first |
| `SpoolTables.EvictedBeforeKept` | client/sentinel-core/src/spool.rs:364-405 | an evicted row is older than a kept one, or as old and before it by call text, then far before near, then by number |
| `Prelude.TextLessIff` | client/sentinel-core/src/spool.rs:386-390 | the text order of call ids, without recursion: equal up to a point where one ends first or has the smaller character |
| `SpoolTables.HeldBytesSplit` | client/sentinel-core/src/spool.rs:350-361 | the spool's size is the sum of its payload lengths, each row once, in whatever order |
| `SpoolTables.EnforcedWithinCaps` | client/sentinel-core/src/spool.rs:364-405 | afterwards both caps hold |
| `SpoolTables.EnforcedIsOneAtATime` | client/sentinel-core/src/spool.rs:364-405 | for payloads within the safe size, batched eviction refines evicting one oldest row at a time until both caps hold |
| `SpoolTables.NewestSurvives` | client/sentinel-core/src/spool.rs:364-405 | a newest row young and small enough survives, for payloads within the safe size |
| `SpoolTables.NewestCanBeLost` | client/sentinel-core/src/spool.rs:364-405 | with larger payloads the newest row can be lost although deleting one old row was enough |
| `SpoolTables.CrowdLosesNewest` | client/sentinel-core/src/spool.rs:364-405 | a thousand rows of 3,004 bytes are taken in one batch, the newest with them, although it fits and one at a time would keep it |
| `SpoolTables.NewestSurvivesIff` | client/sentinel-core/src/spool.rs:364-405 | a newest row inside the age cap that fits survives in every spool with payloads up to a cap, if and only if the cap is at most 3,003 bytes |
| `Spool.Spool.constructor` | client/sentinel-core/src/spool.rs:146-169 | opening keeps what is on disk; a new spool holds nothing |
| `Spool.Spool.BeginCall` | client/sentinel-core/src/spool.rs:171-178 | a call is recorded once, and its first start is kept |
| `Spool.Spool.EndCall` | client/sentinel-core/src/spool.rs:180-186 | the end is recorded on a known call and nothing else changes |
| `Spool.Spool.Push` | client/sentinel-core/src/spool.rs:226-246 | a sealed call refuses; otherwise the row is inserted once and the caps enforced, with the eviction reported |
| `Spool.Spool.EnforceLimits` | client/sentinel-core/src/spool.rs:364-405 | the specified eviction; afterwards the size and age caps hold, kept rows are untouched, and an event with the exact count is returned if and only if a row went |
| `Spool.Spool.EvictToSize` | client/sentinel-core/src/spool.rs:375-395 | the loop deletes the specified number of oldest rows |
| `Spool.Spool.TakePending` | client/sentinel-core/src/spool.rs:248-259 | exactly the call's rows above its watermarks, far before near and by rising number, the first of them if the limit cuts |
| `Spool.Spool.Ack` | client/sentinel-core/src/spool.rs:278-297 | a cumulative ack raises the watermark, never lowers it, and counts the rows it lets go |
| `Spool.Spool.Seal` | client/sentinel-core/src/spool.rs:312-325 | sealing drops exactly a call's rows and reports how many |
| `Spool.Spool.VacuumFinishedCalls` | client/sentinel-core/src/spool.rs:340-348 | a call is forgotten if and only if it has ended and holds no rows, and the count says how many |
| `Spool.WatermarkAfter` | client/sentinel-core/src/spool.rs:278-297 | after any batch of acks a watermark is the higher of the old one and the batch's highest |
| `Spool.RowsAfter` | client/sentinel-core/src/spool.rs:278-297 | the rows a batch of acks leaves are exactly those above the resulting watermarks on the channels it names |
| `Spool.OnlyMaximaMatter` | client/sentinel-core/src/spool.rs:278-297 | two batches with the same highest ack per channel leave the same tables |
| `Spool.AckOrderIsIrrelevant` | client/sentinel-core/src/spool.rs:278-297 | repeating or reordering acks changes nothing |
| `Spool.StepBalances` | client/sentinel-core/src/spool.rs:226-325 | each operation balances rows inserted against rows kept, acknowledged and reported lost |
| `Spool.NoSilentLoss` | client/sentinel-core/src/spool.rs:226-325 | over every run: rows ever inserted equal rows present plus rows acknowledged plus rows in eviction events |
| `Spool.RowsAreAsPushed` | client/sentinel-core/src/spool.rs:226-348 | no operation changes a row it leaves, and only its own push adds it |
| `Spool.RejectedStaysShut` | client/sentinel-core/src/spool.rs:226-338 | over every run a rejected call refuses every push and holds nothing, until a vacuum finds it ended and forgets it |
| `Spool.OnlyRejectionShuts` | client/sentinel-core/src/spool.rs:226-338 | without a rejection its pushes stay accepted |
| `Resume.Plan` | client/sentinel-agent/src/uplink/resume.rs:45-72 | a row is to be sent if and only if it is above our watermark and above the server's for its channel number, the top number always |
| `Resume.LocalMarksAre` | client/sentinel-core/src/spool.rs:299-307 | our side of the plan is the spool's own watermark for the call and channel |
| `Resume.KeepsOrSends` | client/sentinel-agent/src/uplink/resume.rs:70-72 | row by row: a pending row is kept by applying the server's watermarks exactly when the plan says to send it, except at the top sequence number |
| `Resume.ResumeAgreesWithAcks` | client/sentinel-agent/src/uplink/resume.rs:45-72 | acknowledging the server's watermarks leaves exactly the rows the plan sends, if and only if no pending row sits at the top sequence number |
| `Resume.ResumeAgreesInOrder` | client/sentinel-agent/src/uplink/resume.rs:45-72 | the agreement holds for the ordered list the uplink walks |
| `Gateway.ChannelState.constructor` | server/gateway/internal/ingest/session.go:303-310 | a fresh channel vouches for nothing |
| `Gateway.ChannelState.Advance` | server/gateway/internal/ingest/session.go:337-355 | the program computes the specified watermark and buffer |
| `Gateway.AdvanceExact` | server/gateway/internal/ingest/session.go:337-355 | advancing adds exactly the stored number to what the channel knows and keeps the watermark below the first hole |
| `Gateway.WatermarkIsFirstHole` | server/gateway/internal/ingest/session.go:312-355 | after any sequence of stores, in any order and with repeats, the watermark is just below the first number missing |
| `Delivery.StepKeeps` | client/sentinel-core/src/spool.rs:226-325 | every step of client, network and gateway keeps the protocol's invariants |
| `Delivery.RunKeeps` | client/sentinel-core/src/spool.rs:226-325 | so does every run |
| `Delivery.NothingIsLostSilently` | client/sentinel-core/src/spool.rs:226-325 | in every run, every accepted segment is in the spool, durable on the server, or counted in an emitted event |
| `Delivery.ReleasedIsDurable` | server/gateway/internal/ingest/session.go:384-399 | a segment is released only when the server holds it, byte for byte as pushed |
| `Delivery.AckKeeps` | client/sentinel-core/src/spool.rs:278-297 | any announced ack, however late or repeated, keeps every copy faithful and every segment accounted for |
| `AckRuns.NewAckIsNews` | server/gateway/internal/ingest/session.go:384-399 | an announced ack is higher than every earlier one on its channel |
| `AckRuns.LostAckIsNeverRepeated` | server/gateway/internal/ingest/session.go:312-399 | with the row above the watermark neither spooled nor ever sent, no run without new audio brings another ack on the channel, on any connection, and undelivered rows stay until evicted |
| `AckRuns.ToldAgainIff` | server/gateway/internal/ingest/session.go:312-399 | without new audio, some run brings a new ack on a channel if and only if the row just above its persisted watermark is still spooled or was ever sent |
| `AckRuns.ToldAgainAnywhere` | server/gateway/internal/ingest/session.go:312-399 | the same in every state a run reaches |
| `AckRuns.QuietIsOver` | server/gateway/internal/ingest/session.go:312-322 | a channel whose accepted rows are all covered can be told nothing more |
| `AckRuns.StuckIsReachable` | server/gateway/internal/ingest/session.go:312-399 | a run reaches that with the client still holding the durable row |
| `AckRuns.HoleIsReachable` | client/sentinel-core/src/spool.rs:364-405 | an eviction before sending leaves a later row spooled and durable with its ack impossible |
| `Detector.Detector.constructor` | client/sentinel-core/src/state.rs:129-144 | a new detector is blocked with nobody signed in |
| `Detector.Detector.Feed` | client/sentinel-core/src/state.rs:166-222 | one observation changes the fields as specified |
| `Detector.Detector.Observe` | client/sentinel-core/src/state.rs:194-218 | session, voice and time update the accumulators |
| `Detector.Detector.LiftBlock` | client/sentinel-core/src/state.rs:170-179 | an unblock moves a blocked machine to idle and is ignored otherwise |
| `Detector.Detector.ReplaceUser` | client/sentinel-core/src/state.rs:180-193 | another user ends an open call and notes whether to reopen |
| `Detector.Detector.Evaluate` | client/sentinel-core/src/state.rs:224-292 | the transition rules, state by state |
| `Detector.Detector.EnterBlocked` | client/sentinel-core/src/state.rs:294-315 | blocking ends an open call with the matching reason |
| `Detector.Detector.Enter` | client/sentinel-core/src/state.rs:321-326 | entering a state stamps both clocks |
| `DetectorRuns.OpenIsInCallOrWrap` | client/sentinel-core/src/state.rs:166-313 | over every input sequence a call is open exactly in the in-call and wrap states |
| `DetectorRuns.StartsAndEndsAlternate` | client/sentinel-core/src/state.rs:166-313 | starts and ends alternate strictly, beginning with a start |
| `DetectorRuns.OneUserPerCall` | client/sentinel-core/src/state.rs:166-313 | the user is the same from a call's start to its end |
| `DetectorRuns.ArmedSince` | client/sentinel-core/src/state.rs:224-292 | while armed, the speech counter is exactly the far-voiced time since the arm |
| `DetectorRuns.CallNeedsSpeech` | client/sentinel-core/src/state.rs:194-262 | from an arm, an observation starts a call if and only if enough far speech has been heard since it |
| `DetectorRuns.SilenceSinceVoice` | client/sentinel-core/src/state.rs:194-222 | the silence counter never reaches back past the last voiced observation |
| `DetectorRuns.WrapNeedsSilence` | client/sentinel-core/src/state.rs:224-280 | under a monotone clock no voice was heard for the hangup silence before a wrap |
| `DetectorRuns.WrapSince` | client/sentinel-core/src/state.rs:224-280 | while wrapping, the wrap start is on record and no active session has been seen since |
| `DetectorRuns.HangupTakesItsTime` | client/sentinel-core/src/state.rs:224-280 | a hangup comes at least the wrap time after the last wrap, with no active session between, and the call lasted at least hangup silence plus wrap |
| `DetectorRuns.FinalizingIff` | client/sentinel-core/src/state.rs:224-292 | the machine is finalizing exactly when a hangup came last with nothing but user changes and unblocks since |
| `DetectorRuns.ReopenIff` | client/sentinel-core/src/state.rs:180-193 | the reopen flag is up exactly when the latest user change that ended a call found the session active and no arm straight after a hangup has come since |
| `DetectorRuns.ArmIsRushedIff` | client/sentinel-core/src/state.rs:224-292 | an arm comes within the debounce of the last transition if and only if a hangup came last, a reopen is pending, and the session goes active that soon after the hangup |
| `DetectorRuns.ArmIsDebounced` | client/sentinel-core/src/state.rs:224-292 | so every arm waits in a history where no user change ended a call on an active session |
| `DetectorRuns.StaleReopenSkipsDebounce` | client/sentinel-core/src/state.rs:224-292 | a pending reopen can outlive its call and let a later arm through without debounce |
| `DetectorAnswers.PhaseIs` | client/sentinel-core/src/state.rs:166-326 | over every history the state is what the transitions and inputs tell |
| `DetectorAnswers.LastMoveIs` | client/sentinel-core/src/state.rs:317-326 | both clocks read the last transition, resumed call or step out of a finished one |
| `DetectorAnswers.SilenceIs` | client/sentinel-core/src/state.rs:194-222 | the silence counter is exactly the time of unvoiced and empty observations since a voice, a call's start or its resumption |
| `DetectorAnswers.SilentSinceIs` | client/sentinel-core/src/state.rs:194-276 | the silence was broken at that observation and at none since |
| `DetectorAnswers.ExhaustedIs` | client/sentinel-core/src/state.rs:180-292 | the exhausted mark is up exactly from an arm's timeout until the session goes inactive, a user change ends a call, or a call is reopened |
| `DetectorAnswers.ArmIff` | client/sentinel-core/src/state.rs:224-292 | an arm begins if and only if the session is active and the machine is at rest, debounced and not exhausted, or has just hung up with a reopen pending |
| `DetectorAnswers.CallIff` | client/sentinel-core/src/state.rs:237-241 | a call starts if and only if the far speech since the arm reaches the confirming amount |
| `DetectorAnswers.DiscardIff` | client/sentinel-core/src/state.rs:237-251 | an arm is given up if and only if that speech falls short and the session has gone, debounced, or the timeout has come |
| `DetectorAnswers.WrapIff` | client/sentinel-core/src/state.rs:253-264 | a hangup is suspected if and only if a call is open, the session inactive, the exact silence at least the hangup silence, and the last move debounced |
| `DetectorAnswers.HangupIff` | client/sentinel-core/src/state.rs:266-280 | a call hangs up if and only if it is suspected, the session stays inactive, and the wrap time has passed since the suspicion |
| `DetectorAnswers.OrderIff` | client/sentinel-core/src/state.rs:172-193 | blocks, unblocks and user changes answer exactly when ordered, a call's end with the matching reason |
| `DetectorAnswers.ReasonIs` | client/sentinel-core/src/state.rs:294-315 | a block reason is given exactly while blocked, and is the last one |
| `Encoder.SegmentEncoder.constructor` | client/sentinel-agent/src/encode.rs:64-93 | a new encoder is empty and numbers from zero |
| `Encoder.SegmentEncoder.MarkForeign` | client/sentinel-agent/src/encode.rs:120-122 | the segment under construction is marked and nothing else changes |
| `Encoder.SegmentEncoder.PushSamples` | client/sentinel-agent/src/encode.rs:125-142 | the chunked loop equals feeding the samples one by one |
| `Encoder.SegmentEncoder.InsertSilence` | client/sentinel-agent/src/encode.rs:151-159 | a gap is that many zero samples with the flag set first; no gap is nothing |
| `Encoder.SegmentEncoder.Flush` | client/sentinel-agent/src/encode.rs:166-185 | the remainder is padded to fifty packets; nothing pending is nothing |
| `Encoder.SegmentEncoder.EncodeFrame` | client/sentinel-agent/src/encode.rs:187-195 | a packet depends on every frame given so far |
| `Encoder.SegmentEncoder.Emit` | client/sentinel-agent/src/encode.rs:197-214 | a segment carries the number, time and flags, and the next one starts clean |
| `Encoder.FedSplit` | client/sentinel-agent/src/encode.rs:125-142 | any split of a stream over pushes gives the same segments and the same residual state |
| `EncoderRuns.RunIsReference` | client/sentinel-agent/src/encode.rs:120-159 | over every mixture of pushes, gaps and marks, the segments are exactly the seconds of the stream, numbered 0, 1, 2, ..., stamped 1000 times the number, packets coded after all before them |
| `EncoderRuns.SegmentCount` | client/sentinel-agent/src/encode.rs:125-185 | one segment for every whole second, and a flush rounds up |
| `EncoderRuns.FlushIsPadded` | client/sentinel-agent/src/encode.rs:166-185 | the flushed segment holds the remaining packets, then dropped frames, is flagged as silence and keeps its foreign mark; the encoder starts clean |
| `EncoderRuns.CallSegments` | client/sentinel-agent/src/encode.rs:125-214 | all of a call's segments: the count is the length in seconds rounded up, each is numbered by its place and unpacks to exactly fifty packets |
| `EncoderRuns.BatchOfCall` | client/sentinel-core/src/protocol.rs:20-24 | any ten segments the encoder made encode, fit the 1 MiB message and decode back |
| `EncoderRuns.CallDecodesToItsLength` | server/pipeline/sentinel_pipeline/segments.py:142-156 | the server decodes a call's segments to exactly 32,000 bytes a second |
| `EncoderRuns.ServerHearsTheStream` | server/pipeline/sentinel_pipeline/segments.py:142-156 | the packets the server decodes are the encoder's packet stream, each once, in order |
| `EncoderRuns.CallIsHeard` | server/pipeline/sentinel_pipeline/segments.py:142-156 | for a whole call, flush included: the encoder's packets in order, then exactly the dropped frames that fill its last second |
| `EncoderRuns.FlagsOfFed` | client/sentinel-agent/src/encode.rs:197-214 | marks go out on the segment under construction and on that one only |
| `EncoderRuns.FlagsIff` | client/sentinel-agent/src/encode.rs:120-214 | over every mixture of pushes, gaps and marks a segment is flagged foreign if and only if foreign audio was noticed in its second, and as silence if and only if a gap began in it |
| `EncoderRuns.GapFlaggedIff` | client/sentinel-agent/src/encode.rs:151-159 | every second a gap reached is flagged if and only if the gap ends within the second it began in |
| `EncoderRuns.LongGapIsHalfFlagged` | client/sentinel-agent/src/encode.rs:151-159 | a two-second gap leaves a second of synthesised silence unflagged |
| `Pipeline.Pipeline.constructor` | client/sentinel-agent/src/pipeline.rs:98-125 | a new pipeline has its user and no streams |
| `Pipeline.Pipeline.Feed` | client/sentinel-agent/src/pipeline.rs:201-219 | a notification reaches the detector and its transition goes back to the caller |
| `Pipeline.Pipeline.Open` | client/sentinel-agent/src/pipeline.rs:155-194 | with both endpoints, fresh encoders and an unblocked detector; otherwise blocked |
| `Pipeline.Pipeline.OnDeviceLost` | client/sentinel-agent/src/pipeline.rs:309-316 | both streams go and the detector blocks |
| `Pipeline.Pipeline.ReadChannels` | client/sentinel-agent/src/pipeline.rs:231-258 | both channels are read and the shared clock moves by the longer read |
| `Pipeline.Pipeline.Detect` | client/sentinel-agent/src/pipeline.rs:264-274 | far then near voice, and the first transition counts |
| `Pipeline.Pipeline.Step` | client/sentinel-agent/src/pipeline.rs:226-287 | a step is read, detect, apply, drain and bound, in that order |
| `Pipeline.Pipeline.ApplyTransition` | client/sentinel-agent/src/pipeline.rs:358-411 | arms restart the encoders, a start opens a fresh call, an end finishes it |
| `Pipeline.Pipeline.FinishCall` | client/sentinel-agent/src/pipeline.rs:414-452 | buffered and flushed segments are handed over before the end is reported |
| `Pipeline.Pipeline.PushRows` | client/sentinel-agent/src/pipeline.rs:429-434 | segments are handed over one by one and the last number noted |
| `Pipeline.Pipeline.DrainEncoders` | client/sentinel-agent/src/pipeline.rs:454-471 | everything finished goes to the open call |
| `Pipeline.Pipeline.BoundPreroll` | client/sentinel-agent/src/pipeline.rs:295-306 | nothing is kept outside an arm or a call, and at most sixty segments otherwise |
| `PipelineRuns.HeardMoves` | client/sentinel-agent/src/pipeline.rs:264-274 | with positive timings a step's two observations make at most one transition, so none is dropped |
| `PipelineRuns.StepKeeps` | client/sentinel-agent/src/pipeline.rs:226-306 | a step keeps the numbering invariant on each channel |
| `PipelineRuns.ExecKeeps` | client/sentinel-agent/src/pipeline.rs:155-316 | so does every notification whose transition is routed or asks nothing |
| `PipelineRuns.CallsAreNumbered` | client/sentinel-agent/src/pipeline.rs:226-471 | in every such run each call's rows on each channel are 0, 1, 2, ... with no gap or repeat, and its end reports exactly the last |
| `PipelineRuns.CallStartsWhereTheEncoderStands` | client/sentinel-agent/src/pipeline.rs:226-306 | the step that starts a call numbers its rows from the first number its channel has buffered |
| `PipelineRuns.DroppedArmLosesZero` | client/sentinel-agent/src/agent.rs:189-194 | a run with one unrouted session notification whose call starts at number 1 |
| `PipelineDrops.ExecShape` | client/sentinel-agent/src/pipeline.rs:155-316 | every operation, routed or not, keeps each channel's buffer contiguous up to its encoder's next number |
| `PipelineDrops.RunShape` | client/sentinel-agent/src/pipeline.rs:155-316 | so does every run, whatever the routing |
| `PipelineDrops.CallStartsWhereItStands` | client/sentinel-agent/src/pipeline.rs:226-306 | in every run, whatever the routing, a starting call's rows on a channel begin at zero if and only if all its encoder has numbered since its last restart is still buffered |
| `PipelineDrops.NeverBroken` | client/sentinel-agent/src/pipeline.rs:226-471 | a good or harmlessly out-of-step state never leads to a gap or a repeat while everything is routed |
| `PipelineDrops.HarmlessDrop` | client/sentinel-agent/src/pipeline.rs:201-219 | dropping any transition that does not spoil the channel leaves such a state |
| `PipelineDrops.EndDroppedBreaks` | client/sentinel-agent/src/pipeline.rs:358-411 | with a call left open on a live stream, a routed continuation gives it number zero again |
| `PipelineDrops.DropBreaksIff` | client/sentinel-agent/src/agent.rs:189-217 | dropping a notification's transition can break a call's numbering on a channel if and only if its stream is open and the transition is an end, or an arm after numbers were given out |
| `PipelineDrops.UnplugNeverBreaks` | client/sentinel-agent/src/pipeline.rs:309-316 | the transition of a lost device can always be dropped |
| `PipelineDrops.RunIsGood` | client/sentinel-agent/src/pipeline.rs:226-471 | every routed run is in a state to which that answer applies |
| `PipelineDrops.DroppedEndRepeatsZero` | client/sentinel-agent/src/agent.rs:207-217 | a run whose one dropped transition is a block's call end, after which the call is given number zero twice |
| `PipelineVoice.DetectorHistory` | client/sentinel-agent/src/pipeline.rs:155-316 | in every run the detector is the machine fed exactly the listed observations: a step's far voice unless foreign, then its near voice |
| `PipelineVoice.ClockIsShared` | client/sentinel-agent/src/pipeline.rs:239-243 | the detector's clock is the pipeline's and never runs backwards |
| `PipelineVoice.CallIsTheBorrower` | client/sentinel-agent/src/pipeline.rs:261-274 | in every run a call starts on an operation if and only if it is a step of an armed pipeline that brings the far, voiced, not foreign time since the arm to the confirming amount |
| `PipelineVoice.ForeignNeverConfirms` | client/sentinel-agent/src/pipeline.rs:264-266 | no step with foreign audio, or without far voice, ever starts a call |
| `PipelineVoice.ForeignIsSilence` | client/sentinel-agent/src/pipeline.rs:264-274 | a step with foreign audio leaves the detector as one with a silent far side |
| `PipelineVoice.MusicDoesNotHoldTheLine` | client/sentinel-agent/src/pipeline.rs:264-274 | with the session inactive and the near side quiet, foreign audio lets the silence grow until the call wraps |
| `PipelineVoice.ForeignIsMarked` | client/sentinel-agent/src/pipeline.rs:251-258 | in every run a row handed over is flagged foreign if and only if it is a far one and foreign audio was judged while it was being built |
| `PipelineStream.OpenCallIsItsStream` | client/sentinel-agent/src/pipeline.rs:318-356 | in every routed run, what an open call was handed and what is buffered are exactly the encoder's segments for everything read from the channel since the arm |
| `PipelineStream.CallIsItsStream` | client/sentinel-agent/src/pipeline.rs:414-452 | when it ends, its rows are exactly those segments, flushed second included |
| `PipelineStream.ServerHearsTheCall` | server/pipeline/sentinel_pipeline/segments.py:142-156 | so the server decodes, packet by packet, what was read from the arm to the end |
| `PipelineStream.LogIsTheDetectors` | client/sentinel-agent/src/pipeline.rs:358-471 | in any run a start, an end with its reason, and each row are handed over exactly on the detector's transitions, for the right call and at the step's clock |
| `Wire.EncodeInto` | client/sentinel-core/src/protocol.rs:132-146 | appends the record's bytes, or refuses a payload too long for its length field |
| `Wire.GatewayEncode` | server/gateway/internal/wire/wire.go:95-110 | the gateway's in-place header gives the same bytes and the same refusal |
| `Wire.DecodeOfEncode` | client/sentinel-core/src/protocol.rs:155-187 | decoding undoes encoding whatever follows, and finds the record's end |
| `Wire.Layout` | client/sentinel-core/src/protocol.rs:132-146 | where every field lies in a record, byte by byte |
| `Wire.LeastFirst` | client/sentinel-core/src/protocol.rs:132-146 | fields are least significant byte first |
| `Wire.FaultIs` | client/sentinel-core/src/protocol.rs:155-187 | a buffer decodes if and only if its header is sound and its payload complete; otherwise the first fault is reported with the byte at fault |
| `Wire.EncodeOfDecode` | client/sentinel-core/src/protocol.rs:155-187 | only a record's own encoding decodes to it |
| `Wire.PrefixIsTruncated` | client/sentinel-core/src/protocol.rs:155-187 | every strict prefix of an encoding is reported as truncated, with what is missing |
| `Wire.DecodeAll` | client/sentinel-core/src/protocol.rs:190-202 | the loop returns all records or the first error |
| `Wire.MessageIff` | client/sentinel-core/src/protocol.rs:190-202 | a message decodes to these records if and only if it is within the limit and is exactly their encodings |
| `Wire.EncodeAllInjective` | client/sentinel-core/src/protocol.rs:132-202 | different batches never share their bytes |
| `Wire.BatchIsAccepted` | client/sentinel-core/src/protocol.rs:20-24 | ten records of whole segments always encode, fit and read back |
| `Frames.PackSegment` | client/sentinel-core/src/protocol.rs:207-214 | frames behind two-byte lengths, back to back |
| `Frames.UnpackSegment` | client/sentinel-core/src/protocol.rs:217-233 | the offset loop computes the specified frames or the truncation error |
| `Frames.UnpackFrames` | server/pipeline/sentinel_pipeline/segments.py:54-81 | the Python reader accepts the same payloads with the same frames, an empty one read as dropped |
| `Frames.PackOfUnpack` | client/sentinel-core/src/protocol.rs:207-233 | an accepted payload is the packing of its frames |
| `Frames.RoundTripIff` | client/sentinel-core/src/protocol.rs:207-233 | packing is undone if and only if every frame is shorter than 65,536 bytes |
| `Frames.PackInjective` | client/sentinel-core/src/protocol.rs:207-214 | different frames never pack alike |
| `Frames.PackLayout` | client/sentinel-core/src/protocol.rs:207-214 | each frame lies behind its length modulo 65,536, least significant byte first |
| `Frames.DecodeSegments` | server/pipeline/sentinel_pipeline/segments.py:142-156 | one decoder through all segments, silence for dropped frames, an error if any payload is malformed |
| `Frames.PcmAligned` | server/pipeline/sentinel_pipeline/segments.py:142-156 | every frame keeps its place in the decoded sound, dropped or not |
| `Frames.SegmentsAreSeconds` | server/pipeline/sentinel_pipeline/segments.py:142-156 | k fifty-frame segments decode to exactly 32,000 k bytes |
| `Der.WriteLen` | client/sentinel-service/src/der.rs:43-54 | the eight-byte form without its leading zeros is the shortest form |
| `Der.WriteTlv` | client/sentinel-service/src/der.rs:35-41 | tag, shortest length, body |
| `Der.TlvReads` | client/sentinel-service/src/der.rs:35-54 | a strict definite-length reader recovers tag, body and whatever follows |
| `Der.TlvWrites` | client/sentinel-service/src/der.rs:35-54 | whatever that reader accepts is exactly what the writer would have written |
| `Der.SplitOfConcat` | client/sentinel-service/src/der.rs:57-59 | concatenated members split back into exactly those members |
| `Der.UnsignedInteger` | client/sentinel-service/src/der.rs:102-114 | zeros stripped, a sign byte where needed |
| `Der.IntegerReads` | client/sentinel-service/src/der.rs:102-114 | the body is the one legal two's-complement form and reads back as the unsigned value |
| `Der.WriteBase128` | client/sentinel-service/src/der.rs:135-150 | the five-digit buffer suffices and gives the base-128 form |
| `Der.WriteOid` | client/sentinel-service/src/der.rs:125-133 | the loop over arcs gives the identifier's body |
| `Der.OidReads` | client/sentinel-service/src/der.rs:125-150 | every legal identifier reads back arc by arc |
| `Der.OidWrites` | client/sentinel-service/src/der.rs:125-150 | a body read as an identifier within the writer's range is exactly what the writer writes for it |
| `Csr.SpkiHolds` | client/sentinel-service/src/devicekey/mod.rs:148-155 | the key holds exactly the named curve and the point |
| `Csr.NameHolds` | client/sentinel-service/src/csr.rs:110-115 | the name holds exactly two sets, common name and organization |
| `Csr.RdnHolds` | client/sentinel-service/src/csr.rs:117-119 | each holds one attribute, its identifier and its text |
| `Csr.InfoHolds` | client/sentinel-service/src/csr.rs:88-103 | what is signed holds exactly version 0, the name, the key and an empty attribute set |
| `Csr.RequestHolds` | client/sentinel-service/src/csr.rs:67-85 | a request splits into exactly three members, the first byte-identical to what was signed; there is none if the key fails |
| `Csr.SignatureHolds` | client/sentinel-service/src/devicekey/mod.rs:163-174 | a 64-byte signature becomes two integers that read back as its halves; any other length is refused |
| `Coverage.FindFirstFit` | server/pipeline/sentinel_pipeline/coverage.py:109-114 | the scan finds the first free call of the same agent within the window |
| `Coverage.SettleRow` | server/pipeline/sentinel_pipeline/coverage.py:98-117 | a row is settled by dialer id if known, otherwise by first fit |
| `Coverage.CountPerAgent` | server/pipeline/sentinel_pipeline/coverage.py:86-117 | the counters are those of the specification, for exactly the agents seen |
| `Coverage.Reconcile` | server/pipeline/sentinel_pipeline/coverage.py:67-135 | one row per agent behind a dialer row, in order of uid; calls, minutes and gap reason are those of the export settled right, by size of the two row sets |
| `Coverage.OutcomesRight` | server/pipeline/sentinel_pipeline/coverage.py:98-117 | each row is settled by the last call carrying its id, otherwise by the first of the agent's calls within thirty seconds that no earlier row took by time |
| `Coverage.SettledOneWay` | server/pipeline/sentinel_pipeline/coverage.py:98-117 | the two lists allow no other way |
| `Coverage.ReportSays` | server/pipeline/sentinel_pipeline/coverage.py:98-135 | dialer and captured calls are the sizes of the agent's rows and settled rows, minutes their sums, and each gap reason holds if and only if those sizes say so |
| `Coverage.BuiltIsPairing` | server/pipeline/sentinel_pipeline/coverage.py:98-117 | the window matches are injective, within thirty seconds and within the agent |
| `Coverage.ReportedIsBuilt` | server/pipeline/sentinel_pipeline/coverage.py:98-117 | the reported count is the size of that pairing |
| `Coverage.CapturedIsSettled` | server/pipeline/sentinel_pipeline/coverage.py:98-117 | with or without dialer ids, the count is the number of rows settled |
| `Coverage.GreedyIsMaximum` | server/pipeline/sentinel_pipeline/coverage.py:86-119 | when each agent's rows and calls are in start order and no call carries an id, no valid pairing gives any agent more captured calls |
| `Coverage.GreedyIsHalfOptimal` | server/pipeline/sentinel_pipeline/coverage.py:86-119 | for all inputs no valid pairing gives any agent more than twice as many |
| `Coverage.UnsortedExportMissesTheMaximum` | server/pipeline/sentinel_pipeline/coverage.py:86-119 | an unsorted list on which the greedy match is not a maximum |
| `Coverage.UnsortedCapturesMissTheMaximum` | server/pipeline/sentinel_pipeline/coverage.py:86-119 | nor is it a maximum when only the captured list is out of order |
| `Coverage.CountedOnceIff` | server/pipeline/sentinel_pipeline/coverage.py:86-117 | every captured call settles at most one row if and only if no two rows name the same known id and the window rule takes no call that a row names |
| `Coverage.CountedOnceWhenApart` | server/pipeline/sentinel_pipeline/coverage.py:86-117 | it is enough that ids are not shared and no row without a known id fits a named call |
| `Coverage.IdAndWindowCountTwice` | server/pipeline/sentinel_pipeline/coverage.py:103-114 | one call settles two rows, once by id and once by time |
| `Coverage.SharedDialerIdCountsTwice` | server/pipeline/sentinel_pipeline/coverage.py:107-108 | one captured call counted twice through a shared dialer id |
| `ObjectKeys.KeyInjective` | server/pipeline/sentinel_pipeline/blobstore.py:43-52 | segments with slash-free components never share a key |
| `ObjectKeys.KeyParts` | server/pipeline/sentinel_pipeline/blobstore.py:40-52 | a key splits at its slashes into exactly its six components, channel and number in decimal, the number in at least eight digits |
| `ObjectKeys.SlashMerges` | server/pipeline/sentinel_pipeline/blobstore.py:43-52 | with a slash in a component two tenants can |
| `ObjectKeys.DayPrefixCovers` | server/pipeline/sentinel_pipeline/blobstore.py:59-66 | a day's prefix covers exactly that tenant's keys for that day |
| `ObjectKeys.TenantPrefixCovers` | server/pipeline/sentinel_pipeline/blobstore.py:55-56 | a tenant's prefix covers exactly that tenant's keys |
| `ObjectKeys.MemoryBlobStore.DeletePrefix` | server/pipeline/sentinel_pipeline/blobstore.py:106-110 | everything under the prefix goes, nothing else, and is counted |
| `ObjectKeys.MemoryBlobStore.Delete` | server/pipeline/sentinel_pipeline/blobstore.py:103-104 | the object under the key goes, if there is one, and no other |
| `ObjectKeys.MemoryBlobStore.DayPrefixes` | server/pipeline/sentinel_pipeline/blobstore.py:112-114 | the child prefixes, each once, in order |
| `ObjectKeys.DayIsListed` | server/pipeline/sentinel_pipeline/blobstore.py:112-114 | the day of every stored key of a tenant is listed |
| `Retention.RetentionJob.AudioKeysBefore` | server/pipeline/sentinel_pipeline/persistence.py:468-474 | distinct rows of the tenant received before the cutoff, as many as there are up to the limit; all of them if it falls short |
| `Retention.RetentionJob.DeleteObjects` | server/pipeline/sentinel_pipeline/retention.py:126-138 | objects go one by one; those that refuse are left and noted |
| `Retention.RetentionJob.PurgeBatch` | server/pipeline/sentinel_pipeline/retention.py:126-140 | rows go only after their objects; at every point in between no row is gone whose object remains |
| `Retention.RetentionJob.AudioLoop` | server/pipeline/sentinel_pipeline/retention.py:121-142 | with fewer stuck rows than a batch the loop ends, leaves exactly the stuck rows, and is safe at every intermediate point |
| `Retention.RetentionJob.PurgeAudio` | server/pipeline/sentinel_pipeline/retention.py:121-142 | row by row: the tenant's rows from before the cutoff with a deletable object are gone together with it, every other row is as it was |
| `Retention.NeverEnds` | server/pipeline/sentinel_pipeline/retention.py:121-142 | with a batch or more of stuck rows every next batch is full, after any number of passes |
| `Retention.RetentionJob.SweepExpiredDays` | server/pipeline/sentinel_pipeline/retention.py:183-237 | exactly the tenant's objects under a day read as before the horizon go; what cannot be listed, read or deleted stays; objects and days are counted |
| `Retention.DoomedIff` | server/pipeline/sentinel_pipeline/retention.py:183-237 | a segment is swept if and only if it is the tenant's and its day lies before the horizon |
| `Retention.SweepSparesLive` | server/pipeline/sentinel_pipeline/retention.py:172-237 | the object of an unexpired row is never swept while the upload clock is at most a day behind receipt |
| `Retention.SkewBeyondADayIsSwept` | server/pipeline/sentinel_pipeline/retention.py:172-237 | one second more can lose it |
| `Retention.LiveObjectsSurvive` | server/pipeline/sentinel_pipeline/retention.py:115-148 | a whole purge keeps the object of every row of another tenant or received since the cutoff |
| `Retention.RetentionJob.PurgeTranscripts` | server/pipeline/sentinel_pipeline/retention.py:150-155 | exactly the tenant's transcripts from before the cutoff go and are counted, for a batch of at least one |
| `Retention.RetentionJob.PurgeTenant` | server/pipeline/sentinel_pipeline/retention.py:115-169 | row by row and transcript by transcript what a committed purge takes and leaves, other tenants included, the objects it keeps, and the four counts |
| `Retention.RetentionJob.PreviewTenant` | server/pipeline/sentinel_pipeline/retention.py:241-268 | the dry run counts the tenant's rows and transcripts from before the cutoffs and changes nothing |
| `Retention.DryRunCountsTheSame` | server/pipeline/sentinel_pipeline/retention.py:241-268 | committed and dry-run counts agree if and only if no row is stuck |
| `Findings.RuleTierInjective` | server/pipeline/sentinel_pipeline/persistence.py:234-238 | the rule-and-tier text names one pair, whatever colons the rule holds |
| `Findings.NamesAgree` | server/pipeline/sentinel_pipeline/persistence.py:157-167 | the text comparison of the delete agrees with pair equality |
| `Findings.FindingsTable.SaveFindings` | server/pipeline/sentinel_pipeline/persistence.py:234-249 | the upsert loop and the delete leave the specified table |
| `Findings.SavedExactly` | server/pipeline/sentinel_pipeline/persistence.py:140-167 | a write leaves exactly its finding keys, the touched keys and other calls' keys, and changes no human column |
| `Findings.MachineIsLastFinding` | server/pipeline/sentinel_pipeline/persistence.py:140-153 | the last finding for a key is what its row says |
| `Findings.SavedTwice` | server/pipeline/sentinel_pipeline/persistence.py:234-249 | writing twice equals writing once |
| `Findings.SurvivesIff` | server/gateway/internal/store/queries.go:415-475 | over every interleaving of writes and edits a flag is never deleted if and only if it shows as touched at every write that misses it, and then its human columns are exactly what people made them |
| `Findings.SignedSurvives` | server/gateway/internal/store/queries.go:415-475 | so a flag with a name, a note or an answer on it is never deleted |
| `Findings.TouchedIff` | server/gateway/internal/store/queries.go:415-475 | an edit history protects a flag if and only if some edit signed it or the last status given is not open |
| `Findings.ColumnsAre` | server/gateway/internal/store/queries.go:415-475 | after any edits every human column is what was last said for it, and the resolution time that of the last verdict |
| `Findings.UnsignedReopenIsForgotten` | server/gateway/internal/store/queries.go:415-450 | a flag dismissed and reopened unsigned is deleted by the next run that does not find it |
| `Findings.PtpTable.SavePtp` | server/pipeline/sentinel_pipeline/persistence.py:124-138 | an extraction inserts, updates or retracts only while the agent has not corrected it |
| `Findings.LastWordStands` | server/gateway/internal/store/queries.go:491-523 | over every interleaving the agent's last confirmation stands and is never retracted |
| `Findings.BeforeConfirmation` | server/pipeline/sentinel_pipeline/persistence.py:124-138 | until an agent speaks the row is exactly the last extraction, and absent if that saw no promise |
| `Findings.AfterConfirmation` | server/pipeline/sentinel_pipeline/persistence.py:124-138 | the agent's word keeps the extraction it answered, and no later extraction changes anything |
| `Watchdog.CeilingIs` | client/sentinel-core/src/backoff.rs:36-42 | the delays are 1, 2, 4, 8, 16 and 32 seconds, then a minute for ever |
| `Watchdog.Supervisor.constructor` | client/sentinel-service/src/supervisor.rs:59-61 | a new supervisor tracks nothing |
| `Watchdog.Supervisor.OnLogon` | client/sentinel-service/src/supervisor.rs:68-75 | a session is tracked once; repeats change nothing |
| `Watchdog.Supervisor.OnLogoff` | client/sentinel-service/src/supervisor.rs:78-80 | the session is forgotten |
| `Watchdog.Supervisor.OnLaunched` | client/sentinel-service/src/supervisor.rs:83-88 | a tracked session runs from now |
| `Watchdog.Supervisor.OnExited` | client/sentinel-service/src/supervisor.rs:94-112 | an exit backs off, resets after a healthy run, and counts unless expected |
| `Watchdog.Supervisor.Poll` | client/sentinel-service/src/supervisor.rs:115-133 | the lowest due session, or else the earliest deadline; the daily counter resets |
| `Watchdog.DeadlineIsExact` | client/sentinel-service/src/supervisor.rs:115-133 | absent events every poll before a deadline idles until it and every poll from it on launches; with none there is never anything to do |
| `Watchdog.NoSecondAgent` | client/sentinel-service/src/main.rs:442-519 | in every run of the service loop the process table is the set of running sessions and no launch gives a session a second agent |
| `Watchdog.RelaunchesAreSpaced` | client/sentinel-service/src/supervisor.rs:94-133 | in every run the relaunch after the n-th crash of an unbroken crash loop comes no sooner after the first than the first n delays together: 63 + 60(n - 6) seconds from the sixth on |
| `Watchdog.AlwaysTold` | client/sentinel-service/src/supervisor.rs:68-112 | in every run a session's attempt count, start and next launch time are exactly what its crashes in a row, two-minute runs and logons ask for: 1, 2, 4, 8, 16, 32, then 60 seconds |
| `Watchdog.LaunchIff` | client/sentinel-service/src/supervisor.rs:115-133 | in every run a poll launches a session if and only if it is the lowest logged on, without an agent, and past that time |

## Left out

- SQLite, Postgres, S3, NATS and row-level security themselves: statements are map updates and transports are adversarial steps; transactions are taken to be atomic.
- Integer widths: the casts of clocks and counts to signed 64-bit columns, the wrap of an encoder's 32-bit number after 136 years, and a millisecond clock near 2^64. Sequence numbers, wire fields, lengths and the restart counter are bounded where their width matters.
- The order in which `pending_calls` lists calls, spool statistics, encryption keys and schema set-up.
- The gateway's identity checks, orphan buffering and their expiry: in `Delivery` a record for an unopened call is simply not received, and a rejected call is an arbitrary seal.
- The uplink's socket loop, its jittered reconnect backoff, heartbeats and JSON control frames.
- Opus, resampling, voice-activity and suppression arithmetic: packets, voice decisions and the foreign-audio verdict are parameters, and an encoder error is not modelled.
- Spool.Spool.constructor: does not model a missing or wrong encryption key.
- Encoder.SegmentEncoder.constructor: does not model an Opus set-up error.
- Encoder.SegmentEncoder.EncodeFrame: does not model an Opus error, so neither do the next three.
- Encoder.SegmentEncoder.PushSamples: does not model the error return of the frame encoder.
- Encoder.SegmentEncoder.InsertSilence: does not model the error return of the frame encoder.
- Encoder.SegmentEncoder.Flush: does not model the error return of the frame encoder.
- Pipeline.Pipeline.Open: does not model a stream that fails to open after its device was found, or the lost-device event.
- Pipeline.Pipeline.OnDeviceLost: does not model the lost-device event.
- Pipeline.Pipeline.ReadChannels: does not model a read error.
- Pipeline.Pipeline.Step: holds its detector and encoders as values, so aliasing between them is not modelled; a read that fails half way through a step, event reporting, account references and user ids in `call.start` are not modelled.
- PipelineRuns.CallsAreNumbered: assumes routed transitions, whole-frame reads, positive timings, an arm timeout within the pre-roll, and endpoints opened between calls.
- Call ids count up instead of being drawn at random: their uniqueness is assumed.
- Retention.RetentionJob.AudioKeysBefore: does not model the order in which rows are fetched; the purge is proved for every order.
- Retention.RetentionJob.AudioLoop: a key either always or never refuses deletion; a store that recovers during a run is not modelled. Audit entries and log lines are left out.
- Retention.RetentionJob.PurgeTenant: does not state the errors counted or the audit entry.
- PipelineStream.CallIsItsStream: assumes what PipelineRuns.CallsAreNumbered does.
- PipelineVoice.CallIsTheBorrower: assumes positive timings, as PipelineRuns.CallsAreNumbered does.
- PipelineDrops.DropBreaksIff: assumes settings under which unbroken speech confirms an arm before it times out; with others a call may be unable to start at all.
- Directory and S3 object stores: the same surface as the in-memory one, over a file system or a network.
- `transcribable` and `channel_audio`: a filter and a fetch around the decoder.
- Transcript and analysis upserts other than the promise to pay: whole-row replacement.
- Floating point: the ninety per cent threshold of a coverage gap is compared as integers.
- PEM wrapping, the sorting of a SET with more than one member, and key storage, enrollment and renewal around the request.
- Watchdog.Supervisor.Poll: backoff counters are values inside each session; the update check and credential renewal in the service loop are left out.
- The agent's orchestration, identity gate, device resolution, tiers, updates, crash dumps, configuration, cost reports, portal, widget and deployment: decisions settled by reading one branch.
