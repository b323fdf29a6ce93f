# Verification of the hosted-backend cores

A Dafny model of the stateful cores of the hosted backend, with proofs of what they promise. Each module stands for
one component and names its source files in its first comment.

- **Sentry** (`Events`, `Windows`, `Tally`, `Heuristics`, `UserState`, `History`, `Manager`, `SentryRuns`,
  `FeatureHistory`, `Welford`, `Anomaly`, `LogReg`). A user's bounded, incrementally maintained record is proved to be
  a function of that user's whole history, so that every rule's verdict over any run is a statement about everything
  the user did. The anomaly baseline is the exact two-pass statistic of the unflagged events, and the classifier's
  weights stay bounded.
- **Voice and stream rooms** (`TrackIds`, `Rooms`, `RoomTracks`, `RoomMedia`, `VoiceManager`, `VoiceRuns`,
  `Renegotiation`, `Chunking`). `Rooms` says what each handler does to the room table and proves the role, size and
  membership invariants over all runs; `RoomMedia` proves that everybody is sent what everybody else publishes.
  `VoiceManager` holds the handlers as they run and ties each to `Rooms`; `VoiceRuns` ties sequences of calls to its
  runs. `Renegotiation` is the offer/answer protocol of one peer with its pending flag. `Chunking` splits and
  reassembles session descriptions.
- **Conversation memory** (`ToolRepair`, `Conversation`, `Exchanges`, `SingleExchange`, `Compaction`, `ThreadRuns`): the
  window a request shows, the repair pass, and the runs of a conversation on which any number of exchanges and
  compactions may be under way.
- **Media** (`Pcm`, `Wav`, `Vp8`, `Dsp`, `Segmenter`, `Playback`): the WAV writer and parser, the IVF reader and VP8
  packetizer, resampling, utterance segmentation and playback preemption.
- **Text matchers** (`Glob`, `Addressing`, `Text`). `Basics` holds what all parts share.

Times are integers in milliseconds and floats are reals: rounding, overflow to infinity and NaN are not modelled.
Integer widths are modelled where they show: RTP counters, WAV fields, bytes and samples.

**What is one step.** A handler of the voice server is one step, except that a registration may mark its name long
before it gets hold of the room, and a peer object that was replaced or has left may still deliver a track. The code does
not hold one lock throughout: joining, leaving and fanning out take the room lock in parts, and `renegotiateFor` tests
the signalling state and raises the flag without a common lock (voice.go:1057 and 1059). `Renegotiation.LateFlagStrands`
shows what a step in that gap does. Closing a peer makes the media library report a state change that calls `handleLeave`
later; in a run this is an ordinary departure step, at any later point.

Events reach the sentry manager one at a time, but its locks are released between an event's lookup, its update, the
snapshot and the last read. A run takes outside reads between update and snapshot (the only gap in which a read has an
effect) and collections between lookup and update; everything else runs between events. In a conversation each append,
each composing of a request and each of the three critical sections of a compaction is a step of its own.

**Where the code and its words differ.** The model follows the code.

- Features described as counts "in the recent window" include the CTCP count, which runs since connect
  (sentry/state.go:111, 352); `ctcp_storm` is proved as such.
- The reassembly template is described as chunk 0's metadata but is the first arrival's (voice_bridge.go:81, 107):
  `Chunking.SentIsReceived`.
- `pm_shotgun` and `nickserv_spoof` speak of the window but see at most its last 32 private messages, so they judge it
  exactly for 32 messages or fewer and for no larger number: `History.MinuteRulesExact`.
- The cache is described as invalidated by the next event, but mode, connect and register events do not:
  `FeatureHistory.StaleOnMode` is such a run, `FeatureHistory.ReaderIsRight` says exactly who reads a stale vector.
  Operator feedback trains the classifier on what it reads (sentry/manager.go:813).
- The rules are meant to judge an event at its own time; five of them judge it at that of an outside read that fell
  between update and rules: `SentryRuns.AlertsAreWarranted`, `FeatureHistory.GapHidesFlood`.
- The repair pass is described as discarding orphaned tool responses; those not adjacent to an incomplete caller pass
  through: `ToolRepair.OrphansAfterRepair`.
- Compaction loses turns exactly when a compaction commits after another one that committed since it looked; nothing in
  the code prevents that: `Compaction.NothingLostIff`, with the runs `ThreadRuns.TwoJobsLoseTurns` and
  `ThreadRuns.TwoJobsOverrun`. Such a commit can also take the question a request is about to be composed for:
  `Compaction.CommitInGap`, `ThreadRuns.QuestionLost`.
- A window that starts on a user turn is described as always valid (orca/memory.go:118-123); with overlapping exchanges
  on one conversation it is not: `Exchanges.EveryRequestIsPaired`, `ThreadRuns.OverlapOrphans`.
- Every stream room with peers has a streamer only while nobody demotes or displaces the last one and no present name
  joins again: `Rooms.NextCovered` gives the exact conditions, `Rooms.RejoinUncovers` a run.
- Registering an in-process name again is described as replacing it but never returns (voice_local.go:67, 89 and 327):
  `VoiceManager.VoiceServer.RegisterLocal`.
- A departing name takes the tracks of names that continue it after a hyphen along: `RoomTracks.CutExact`,
  `RoomMedia.LeaveConnects`, `RoomMedia.HyphenSilences`.
- `LoadSnapshot` restores all parameters except a non-positive learning rate: `LogReg.SaveAndLoad`.
- A bot name with any character that is neither letter nor digit can never be addressed: `Addressing.ReachableNames`.
- A confidence exceeds 1 for `link_spam` on an event stamped before the user was first seen:
  `Heuristics.ConfidenceInUnit`, `SentryRuns.LateConnectOverrates`.
- The signalling flag is described as up only while the peer is busy; after a failed answer it can be up on a stable
  peer: `Renegotiation.NextFlag`, `Renegotiation.FlagOnStablePeer`.
- The product of the tempo stages is the target before the last stage is printed with four decimals.

## Model

| member | source | states |
|---|---|---|
| UserState.User.OnMessage | sentry/state.go:140-214 | the whole record after a message: counters, burst gap, both capped side windows, the capped message window and the hash counts with the evicted message's count taken back |
| UserState.User.Touch | sentry/state.go:125-136 | last activity, the capped event window and an emptied feature cache, nothing else |
| UserState.User.OnJoin | sentry/state.go:217-234 | the record after a join: join window of 16, hop window of 64 |
| UserState.User.OnPart | sentry/state.go:237-243 | the record after a part or kick |
| UserState.User.OnNick | sentry/state.go:245-254 | the record after a nick change |
| UserState.User.OnCtcp | sentry/state.go:264-269 | a CTCP touches the record and raises the counter since connect; it enters no window |
| UserState.AppendTimeBounded | sentry/state.go:256-262 | the last max stamps of the list with the new one |
| UserState.User.ComputeFeatures | sentry/state.go:296-372 | one pass over each window yields the features as defined over the last minute's messages, joins, nick changes and hops |
| UserState.User.SnapshotFeatures | sentry/state.go:273-291 | the cached vector if there is one, else a fresh one, which is then cached |
| UserState.User.SnapshotFor | sentry/manager.go:565-598 | the snapshot the rules read, with rates, duplicate count, recipients and spoof count over the windows |
| UserState.PmTelemetry | sentry/manager.go:600-640 | count, distinct recipients and phishing bodies of the private messages in the window |
| Windows.CapThenWindow | sentry/state.go:197-212 | for time-ordered lists, cutting to the last n and then to the last minute is the same as cutting to the last minute and then to the last n: a capped window loses nothing inside the minute up to its cap |
| Tally.DropIsEvict | sentry/state.go:203-211 | decrementing the evicted hash keeps the counts exactly those of the remaining window |
| Tally.ExcessIsDuplicates | sentry/manager.go:569-574 | the duplicate score equals window length minus number of distinct hashes |
| Tally.CountExcess | sentry/manager.go:569-574 | walking the map in any order gives that score |
| History.AfterTracks | sentry/state.go:138-269 | after every activity event the bounded record is again the function of the whole history it should be: every window, the hash index, the counters and the burst gap |
| History.BurstStep | sentry/state.go:147-159 | the sticky burst gap is the gap that opened the burst still running, and zero when none runs |
| History.WindowsAreExact | sentry/state.go:197-262 | each capped window counts exactly the smaller of its cap and the true number of matching events of the last 60 s over the whole history, and holds exactly the latest of them |
| History.VerdictsAreHistorical | sentry/heuristics/l1.go:114-520 | each of the thirteen rules fires on the bounded snapshot exactly when its statement about the whole history holds; no threshold exceeds its cap |
| History.LengthVariance | sentry/state.go:338-343 | the one-pass length variance is the two-pass population variance of the window, hence never negative |
| History.MinuteRulesExact | sentry/manager.go:614-626 | every history with n private messages in its last minute is judged by pm_shotgun, respectively nickserv_spoof, as the whole minute demands if and only if n is at most 32 |
| History.NeverTooMuch | sentry/manager.go:614-626 | whatever n is, neither rule fires without the whole minute warranting it |
| Heuristics.Dispatch | sentry/heuristics/l1.go:103-112 | all alerts of the registry in registration order |
| Heuristics.DispatchMeaning | sentry/heuristics/l1.go:103-112 | an alert of a kind is raised exactly when the rule of that name fires |
| Heuristics.ConfidenceInUnit | sentry/heuristics/l1.go:114-520 | a fired rule's confidence lies in [0, 1] exactly unless it is link_spam on an event stamped before the user was first seen |
| Manager.React | sentry/manager.go:278-306 | the update, the verdicts on the snapshot read after it and after whatever outside read fell in between, and the vector read after them |
| Manager.Manager.Observe | sentry/manager.go:251-315 | alerts, records and baseline after an event, for any outside read between its update and the rules |
| Manager.Manager.ReadFeatures | sentry/manager.go:191-202 | an outside reader gets the cached vector or fills the cache, and nothing else changes |
| Manager.Manager.IdentifyUser | sentry/manager.go:458-493 | connect and register only touch identity and last activity, creating the record if need be |
| Manager.Manager.Gc | sentry/manager.go:661-675 | exactly the users idle since before the cutoff are forgotten |
| SentryRuns.RunTracks | sentry/manager.go:248-296 | over every run of events, outside reads and collections, also such as fall inside the handling of an event, the manager holds exactly the users heard of and not forgotten, each with a record tracking the user's whole activity since |
| SentryRuns.AlertsAreWarranted | sentry/manager.go:277-299 | in every time-ordered run, a rule raises its alert exactly when the user's whole history warrants it, with message and join rates, links and upper-case shares taken for the instant of an outside read that fell between update and rules, if one did |
| SentryRuns.GapsMatterToFive | sentry/manager.go:283-298 | without such a read, or with one for the event's own time, the verdict is the history's; for all rules but flood, mass_join, link_spam, idle_burst and shouting it is so whatever is read |
| SentryRuns.MovementRules | sentry/heuristics/l1.go:346-366 | the same in numbers for movement: mass_join at 10 joins of the last 60 s, hop_flood at 8 joins and parts, nick_flip at 5 nick changes |
| SentryRuns.MessageRules | sentry/heuristics/l1.go:346-366 | the same in numbers for messages: flood at 30 messages of the last 60 s, pm_flood at 12 private messages, repeat at 4 duplicates among the last 32 messages |
| FeatureHistory.GapHidesFlood | sentry/manager.go:283-298 | the thirtieth message of a minute raises flood, and does not when an outside read for a minute later falls between its update and the rules |
| FeatureHistory.OneVector | sentry/manager.go:298-307 | the vector the rules and the baseline read within one Observe is the same, and it is computed afresh when the event touches the user or nothing was cached |
| FeatureHistory.RunCached | sentry/state.go:269-291 | in every time-ordered run the cache of every user is filled exactly when the input history says so, with the vector of the instant and the identity it says |
| FeatureHistory.ReaderIsRight | sentry/state.go:273-291 | in every time-ordered run a reader is given the right vector exactly when nothing is cached or the cached one was computed for the same instant with the same account and transport flags |
| FeatureHistory.EventReadsRight | sentry/manager.go:298-307 | the vector read for an event is right for it exactly when it was computed for its time: always for events that touch the user, outside reads in between aside; for a mode event when what was cached is of that instant and those flags |
| FeatureHistory.StaleOnMode | sentry/manager.go:282-307 | a run of a message and, a second later, a mode event, whose reader gets the vector of the message, as does an outside reader |
| SentryRuns.AlertConfidences | sentry/manager.go:298-299 | in every time-ordered run every alert's confidence is in [0, 1] |
| SentryRuns.LateConnectOverrates | sentry/heuristics/l1.go:215-243 | a run in which link_spam raises an alert with a confidence above 1: the connection was stamped after the message |
| FeatureHistory.VectorIsHistorical | sentry/state.go:296-372 | the feature vector computed from the bounded record is an explicit function of the history, the time first seen, the identity and the instant |
| FeatureHistory.BaselineIsBatchOfUnflagged | sentry/manager.go:304-315 | in every run each feature's accumulator is the two-pass statistic of exactly the feature-bearing events on which the history warrants no alert, their vectors computed from the history alone |
| Welford.Accumulator.Observe | sentry/anomaly/welford.go:35-41 | one step of the running recurrence |
| Welford.Accumulator.Merge | sentry/anomaly/welford.go:72-85 | Chan's combination, empty shards included |
| Welford.BatchMeaning | sentry/anomaly/welford.go:17-50 | mean times n is the sum, m2 is the sum of squared deviations and never negative, and so is the variance |
| Welford.ObserveIsBatch | sentry/anomaly/welford.go:35-41 | the recurrence agrees with the two-pass formulas after every sample |
| Welford.MergeIsBatch | sentry/anomaly/welford.go:69-85 | merging the statistics of two lists gives the statistics of their concatenation |
| Welford.MergeAssociativeCommutative | sentry/anomaly/welford.go:69-85 | shards may be merged in any grouping and order |
| Anomaly.Model.Observe | sentry/anomaly/model.go:88-99 | every feature's accumulator takes its value, new ones being started, in whatever order the map is walked |
| Anomaly.Model.Snapshot | sentry/anomaly/model.go:154-162 | the snapshot is the model's statistics |
| Anomaly.Model.LoadSnapshot | sentry/anomaly/model.go:165-173 | loading replaces all statistics by the snapshot's, in accumulators of the model's own |
| Anomaly.TrainedColumns | sentry/anomaly/model.go:88-99 | after any list of samples each accumulator holds the two-pass statistics of exactly the values its feature took |
| Anomaly.AnomalousMeaning | sentry/anomaly/model.go:104-131 | a value is anomalous exactly when enough samples were seen, they are not all but equal, and its squared deviation exceeds t squared batch variances |
| LogReg.Model.Train | sentry/classifier/logreg.go:108-139 | one step of gradient descent with weight decay on all of the sample's features and the bias, in whatever order |
| LogReg.Model.Score | sentry/classifier/logreg.go:92-102 | the squashed bias plus weighted sum over all features |
| LogReg.Model.Snapshot | sentry/classifier/logreg.go:187-201 | all parameters as they are |
| LogReg.Model.LoadSnapshot | sentry/classifier/logreg.go:204-217 | all parameters are replaced, except that a non-positive rate keeps the old one |
| LogReg.RunsStayTame | sentry/classifier/logreg.go:108-139 | from zero weights, in every training run on features within V and with 0 < lr*l2 <= 1, weights stay within V/l2 and the bias within 10/l2 |
| LogReg.TrainMovesLogit | sentry/classifier/logreg.go:108-139 | one step moves the sample's own logit by exactly minus rate times error times one plus the squared norm, less the decay |
| LogReg.SaveAndLoad | sentry/classifier/logreg.go:187-217 | a model saved and loaded into another scores as before, and is the saved model exactly when its rate is positive or the loader's own rate equals it |
| LogReg.Explain | sentry/explain/explain.go:56-71 | one contribution per feature, the logit their sum with the bias |
| LogReg.ReportsSumToLogit | sentry/explain/explain.go:56-71 | for every iteration order the contributions and the bias sum to the logit Score uses |
| Chunking.SendChunked | voice.go:1351-1386 | the chunks in order, as many as the connection takes |
| Chunking.Send | voice.go:1318-1341 | only offers and answers over 2000 bytes are chunked |
| Chunking.PiecesExact | voice.go:1351-1367 | the pieces join back to the text; none is empty or over the limit |
| Chunking.Bridge.AssembleChunk | voice_bridge.go:96-134 | one arrival's whole effect on the buffers and what it passes on |
| Chunking.KeysDistinct | voice_bridge.go:102 | buffers of different senders or ids never mix when no sender's name holds the separator |
| Chunking.ReassemblyExact | voice_bridge.go:93-134 | in any order, with duplicates and other traffic in between, nothing is passed on until the last missing piece arrives, then exactly one envelope with the original type and text, and the buffer is freed |
| Chunking.CorrectIffDistinguishable | voice_bridge.go:118-126 | that promise holds for every order and multiplicity exactly when no piece is empty or there is only one piece |
| Chunking.LateCopyOpensBuffer | voice_bridge.go:105-112 | a copy after completion opens a new buffer |
| Chunking.SentIsReceived | voice.go:1343-1386 | what was split is reassembled to its type and text; the tracks survive exactly when there were none or chunk 0 was the first to arrive |
| VoiceManager.VoiceServer.HandleJoin | voice.go:509-595 | the room table after a join: refusals, room creation, role by mode and current streamers, subscriptions to every published track |
| VoiceManager.VoiceServer.HandleLeave | voice.go:899-971 | the room table after a departure, with a longest-tenured peer promoted when the last streamer left, and who that was |
| VoiceManager.VoiceServer.HandlePromote | voice.go:1200-1241 | the target becomes a streamer exactly under the code's conditions, the cap of four included |
| VoiceManager.VoiceServer.HandleDemote | voice.go:1243-1284 | the target becomes a viewer exactly when it is the requester itself or the requester is the oldest streamer, who is always named |
| VoiceManager.VoiceServer.FanOutTrack | voice.go:711-835 | a published track reaches every other peer; a viewer's track in a stream room reaches nobody |
| VoiceManager.VoiceServer.FanOutStraggler | voice.go:711-835 | a peer object that was replaced or has left still sends its track to every other peer of the room |
| VoiceManager.VoiceServer.RegisterLocal | voice_local.go:69-139 | an in-process participant takes the place of a peer of its name and its audio reaches everyone, unless its track could not be made; a name that is in-process already is marked, its peer goes, and the call never returns |
| VoiceManager.VoiceServer.StopLocal | voice_local.go:317-343 | a participant leaves the room and the expected set, and an empty room is reaped |
| VoiceManager.VoiceServer.SendVideoRtp | voice_local.go:245-276 | the first video packet adds the video track and sends it to every peer, unless the track cannot be made |
| VoiceManager.VoiceServer.PartOrQuit | voice_bridge.go:238-258 | a part leaves one room; a quit leaves, one after the other, exactly the rooms the name is found in, and ends with the name a peer of no room |
| VoiceManager.VoiceServer.ClearLocalExpected | voice_local.go:219-228 | the name goes from the channel's set, and an emptied set goes from the table |
| VoiceManager.StreamersInOrder | voice.go:477-489 | all streamers, none twice, in join order |
| VoiceManager.Oldest | voice.go:938-943 | a peer that joined no later than any other |
| VoiceManager.DetachFromAll | voice.go:915-928 | from every remaining peer exactly the senders whose id starts with the name and a hyphen are removed |
| VoiceManager.Subscribed | voice.go:573-618 | a joiner is sent every track of every other peer and of every in-process participant |
| VoiceManager.DeparturesKeep | voice_bridge.go:244-258 | departures in a row keep all room invariants, take the name out of exactly those rooms and nobody else out of any |
| VoiceRuns.Serve | voice_bridge.go:205-258 | every call is no step of the room model, one, or for a part or quit departures of that name |
| VoiceRuns.ServeAll | voice_bridge.go:205-258 | a fresh server passes through a run of the room model whatever calls come, so that roles, kinds and labels hold after any of them, and with hyphen-free names everybody is sent everything |
| Rooms.NextRoles | voice.go:523-560 | every handler keeps at most four streamers in a stream room, every peer of a voice room a streamer, and the size limit |
| Rooms.RunRoles | voice.go:509-1284 | the same in every reachable state, failed allocations included |
| Rooms.LeavePromotes | voice.go:929-948 | a departure of the last streamer promotes a longest-tenured remaining peer and no one else; any other departure leaves roles alone |
| Rooms.NextCovered | voice.go:550-557 | from a state where every stream room with peers has a streamer, a handler keeps it so exactly unless it demotes the only streamer, is a rejoin by the only streamer, or displaces the only streamer |
| Rooms.RejoinUncovers | voice.go:550-557 | a run that ends with a stream room of viewers: a lone streamer joins again |
| Rooms.RunCovered | voice.go:929-948 | in every run without demotion, rejoin and displacement every stream room with peers has a streamer |
| Rooms.RunApart | voice.go:515-520 | in every run, failed allocations and interrupted registrations included, no name is both a peer and in-process in a room, and everybody in-process is expected there |
| Rooms.NextMembers | voice_local.go:69-114 | a handler keeps membership exact exactly unless it leaves an empty room or an absent expected name behind: a failed join that created the room, or a registration that failed or is only halfway through |
| Rooms.RunMembers | voice_local.go:197-228 | in every run without failed allocations and interrupted registrations no name is both kinds of participant, the locals of a channel are exactly its expected ones, and no room is empty |
| TrackIds.ParseExact | voice.go:1137-1153 | parsing a track id gives back publisher and kind exactly when the publisher's name has no hyphen |
| TrackIds.PrefixExact | voice.go:919-924 | which ids a departing name's prefix matches: its own, those of names starting with it and a hyphen, and those whose publisher and kind spell it |
| TrackIds.IdInjective | voice.go:751 | distinct tracks never share an id, whatever the names |
| RoomTracks.CutExact | voice.go:915-928 | a departure takes a remaining peer's senders of the departing name and no others exactly when no look-alike is sent to it |
| RoomTracks.LeaveDetaches | voice.go:899-928 | in every reachable state, failed allocations included, with no hyphen in the name or in any publisher's, every remaining peer loses exactly the departing name's tracks |
| RoomTracks.HyphenCollision | voice.go:921-924 | without the hypothesis: when ann leaves, tracks of ann-bot go too |
| RoomTracks.RunLabelled | voice.go:655-669 | in every reachable state, failed allocations included, peers publish only their own tracks and are sent only those of others |
| RoomTracks.HintsExact | voice.go:1127-1156 | a peer's hints are all right exactly when no publisher's name has a hyphen |
| RoomMedia.LeaveConnects | voice.go:915-928 | a departure cuts someone who stays off from someone else who stays exactly when a track looking like the leaver's is published to it |
| RoomMedia.NextHeard | voice.go:509-1284 | from a state where every peer is sent every track of every other participant, a handler keeps it so exactly when it is not such a departure |
| RoomMedia.RunHeard | voice.go:509-1284 | in every run without such departures every peer is sent every track of every other participant |
| RoomMedia.EverybodyIsHeard | voice.go:573-618 | in every run of hyphen-free names, failed allocations included, every peer is sent every track of every other participant, peer or in-process, after any joins, departures, displacements, late tracks and role changes |
| RoomMedia.HyphenSilences | voice.go:921-924 | a run with a hyphen after which someone who stays in the room goes unheard |
| VoiceManager.SendToAll | voice.go:774-830 | every peer but the publisher gets a sender for the track |
| VoiceManager.VoiceServer.MarkLocalExpected | voice_local.go:197-207 | the name is added to the channel's expected set |
| VoiceManager.VoiceServer.ReapEmpty | voice.go:499-505 | the room is dropped exactly when it has neither peers nor in-process participants |
| Renegotiation.VoicePeer.AddTrack | voice.go:774-836 | a new sender that no exchange covers, and a renegotiation called for |
| Renegotiation.VoicePeer.RemoveTracks | voice.go:915-928 | the senders go and no renegotiation is called for |
| Renegotiation.VoicePeer.RenegotiateFor | voice.go:1043-1093 | an offer covering all senders, or the flag when the peer is not stable |
| Renegotiation.VoicePeer.HandleClientAnswer | voice.go:1009-1033 | the exchange completes, the flag is taken down and a remembered renegotiation runs; a bad or late answer changes nothing |
| Renegotiation.VoicePeer.HandleOffer | voice.go:973-1004 | the exchange completes for the senders that fit, and what is left over calls for a renegotiation; failures leave the state the code leaves |
| Renegotiation.VoicePeer.HasUnnegotiatedSenders | voice.go:1095-1115 | some sender is in no completed exchange |
| Renegotiation.NextRemembered | voice.go:1043-1093 | a step forgets an uncovered sender exactly when it fails to create the last offer called for |
| Renegotiation.NeverLost | voice.go:774-836 | in every run in which server offers can be created, every sender is covered by a completed exchange or the outstanding offer, waits for the client's first offer, or a renegotiation is queued or remembered by the flag of a busy peer |
| Renegotiation.NextFlag | voice.go:1035-1061 | the flag comes up on a stable peer exactly when an offer is answered after a failed answer with a renegotiation in between |
| Renegotiation.FlagOnStablePeer | voice.go:1035-1061 | a run that ends with the flag up on a stable peer |
| Renegotiation.FlagMeansBusy | voice.go:1035-1061 | in every run in which answers can be produced the flag means the peer is not stable |
| Renegotiation.TwoAnswersSettle | voice.go:1024-1033 | once the queue has run, two answers bring every sender into a completed exchange, however many tracks piled up, whether or not the flag is honest |
| Renegotiation.SecondOfferSettles | voice.go:973-1033 | the same for a peer whose client offer is still to be answered |
| Renegotiation.LateFlagStrands | voice.go:1057-1060 | in a state a run reaches, an answer between the test and the raising of the flag strands a sender: flag up, peer stable, nothing queued, the sender no longer remembered, and no answer helps |
| ToolRepair.RepairToolCallSequences | orca/memory.go:184-228 | the index loop computes the repair |
| ToolRepair.ScanRun | orca/memory.go:194-207 | which wanted ids the contiguous run of tool messages answers, and where it ends |
| ToolRepair.OutcomesMatch | orca/memory.go:208-225 | each surviving message is the original or the original stripped of its calls |
| ToolRepair.RepairPairs | orca/memory.go:174-228 | whatever goes in, every assistant with calls comes out directly followed by tool messages answering all of them |
| ToolRepair.RepairIdentity | orca/memory.go:182-183 | the pass changes nothing exactly when that already holds |
| ToolRepair.RepairIdempotent | orca/memory.go:184-228 | repairing twice is repairing once |
| ToolRepair.RepairKeeps | orca/memory.go:208-225 | every message other than a tool message survives in order, changed only where its calls are not all answered |
| ToolRepair.OrphansAfterRepair | orca/memory.go:214-225 | no orphan is left exactly when every orphan sat in the run of an incomplete caller |
| ToolRepair.LeadingOrphanSurvives | orca/memory.go:189-193 | a tool message with no assistant before it passes through |
| Conversation.Thread.Append | orca/memory.go:48-55 | the turn is added and a user turn sets the last speaker |
| Conversation.Thread.BuildMessages | orca/memory.go:101-172 | the repaired composition of system prompt, summary, window, note and query |
| Conversation.Thread.RecentTurns | orca/memory.go:115-157 | the last 24 turns less what precedes their first user turn, rendered |
| Conversation.Thread.BeginCompaction | orca/memory.go:233-241 | whether there are 40 turns, and the summary to build on |
| Conversation.Thread.TakeOlder | orca/memory.go:242-252 | all but the last 24 of the turns held by then, if there are more |
| Conversation.Thread.CommitCompaction | orca/memory.go:289-292 | the summary is stored, and then exactly the cut prefix dropped or, when it is longer than what is held, a fault raised |
| Exchanges.ComposedRequest | orca/memory.go:101-157 | in every run, however many exchanges and compactions overlap, a composed request shows the end of the log, at most 24 turns and from a user turn on, and its own question exactly when that was not dropped since and fewer than 24 turns came after it |
| Exchanges.EveryRequestIsPaired | orca/ask.go:83-152 | in every run, overlapping exchanges included, every request the model is sent answers all its calls in place, and has an orphan exactly when what was composed had one outside the run of an incomplete caller |
| SingleExchange.ComposedRequestIsClean | orca/ask.go:75-79 | when exchanges do not overlap, with compactions committing at any point, the composed request is fully paired and without orphans, so the repair changed nothing, and it shows its question exactly when any turn is held |
| SingleExchange.EveryRequestIsClean | orca/ask.go:83-152 | so is every request the model is sent, later tool rounds included |
| ThreadRuns.OverlapOrphans | orca/ask.go:75-152 | a run of two overlapping exchanges in which the second request has an orphan |
| Compaction.NothingLostIff | orca/memory.go:233-293 | at any point of any run the stored summary and the held turns cover the whole conversation if and only if no compaction so far committed after another one that committed since it looked |
| Compaction.CommitKeeps | orca/memory.go:289-292 | a commit keeps everything exactly when everything was there before it and no other commit came since it looked |
| Compaction.OneAtATimeLosesNothing | orca/memory.go:233-293 | nothing is lost in any run in which no compaction starts while another is under way |
| Compaction.CompactionLosesNothing | orca/memory.go:245-292 | a commit that was not overtaken splits the held turns exactly into those its summary was given and the rest, turns appended meanwhile included |
| Compaction.ToldCovers | orca/memory.go:289-292 | the turns any committed compaction was given come before the mark by which the dropped but never summarised turns are counted |
| Compaction.OvertakenCommitDrops | orca/memory.go:289-292 | a commit drops turns no stored summary was ever given exactly when another commit came since it took its turns, and how many |
| Compaction.OverrunExact | orca/memory.go:289-292 | the cut exceeds the held turns exactly when the others dropped more since it was made than 24 and the turns that arrived since; it never does without another commit |
| Compaction.CommitInGap | orca/memory.go:289-292 | a commit between the asking of a question and the composing of its request hides the question exactly when it cuts past it, with nothing appended since exactly when it cuts all that is held, and never when it was not overtaken |
| Compaction.QuestionShown | orca/ask.go:75-79 | in every run without an overtaken commit after the question, its request shows it exactly when fewer than 24 turns came after it |
| Compaction.QuestionAlwaysShown | orca/ask.go:75-79 | without overlapping exchanges and overtaken commits, a request shows 1 to 24 turns, from a user turn to its own question |
| ThreadRuns.QuestionLost | orca/ask.go:75-79 | a run without overlapping exchanges in which an overtaken commit between question and request leaves a request that shows no turn at all |
| ThreadRuns.TwoJobsLoseTurns | orca/memory.go:233-292 | a run of 20 exchanges and two overlapping compactions that ends with 16 of its 40 turns in neither the summary nor the held turns |
| ThreadRuns.TwoJobsOverrun | orca/memory.go:289-292 | a run of 25 exchanges in which the second of two compactions is left with 26 turns to cut and 24 held |
| Glob.DoGlob | orca/mask.go:172-199 | terminates and decides membership in the declarative language, for all patterns, texts and start indices |
| Glob.GlobMatch | orca/mask.go:163-170 | agrees with the language after lower-casing, except that the empty mask matches everything |
| Addressing.Tokenize | orca/chat_listen.go:157-168 | the tokens are exactly the maximal runs of word characters |
| Addressing.SliceAfterNWords | orca/chat_listen.go:107-136 | what follows the n-th word of the original text, trimmed of addressing punctuation |
| Addressing.ScannersAgree | orca/chat_listen.go:103-168 | for every text and n, the words of the second scanner's remainder are the first scanner's tokens from index n on |
| Addressing.Match | orca/chat_listen.go:69-101 | addressed exactly when one of the first two words is the name, and the query keeps every later word in order |
| Addressing.ReachableNames | orca/chat_listen.go:83-88 | a bot can be addressed at all exactly when its name is made of word characters |
| Pcm.Int16ToBytes | orca/voice_local.go:327-334 | the little-endian bytes of the samples |
| Pcm.SamplesOfBytes | orca/audio_codec.go:188-191 | reading samples from their bytes gives them back |
| Wav.WavWrap | orca/voice.go:503-529 | the header and data as laid down, with field widths cut |
| Wav.DecodeWav | orca/audio_codec.go:138-193 | the loop terminates within bounds on every input and computes the declarative reading of the file, each error case included |
| Wav.FindChunks | orca/audio_codec.go:145-171 | the last format and the last data chunk, sizes past the end taken as everything left |
| Wav.WrittenThenParsed | orca/voice.go:501-529 | written samples are parsed back with the low 32 bits of the rate and the low 16 of the channel count, zeros defaulted |
| Wav.RoundTrip | orca/audio_codec.go:138-193 | the trip is exact exactly when the data fits 32 bits and rate and channels are non-zero and in range |
| Wav.UnknownChunkIgnored | orca/audio_codec.go:149-171 | inserting a complete unknown chunk, odd-size padding included, after any complete chunks leaves the result unchanged exactly unless it lifts the file over the minimum size |
| Vp8.Packetizer.Packetize | orca/video_player.go:428-469 | the fragments of the frame, and the sequence number they leave behind |
| Vp8.FragmentAt | orca/video_player.go:428-469 | packet by packet: consecutive numbers mod 2^16, one timestamp, marker on the last and start bit on the first only, payload of at most 1200 bytes, its slice of the frame |
| Vp8.StreamNumbers | orca/video_player.go:453-466 | sequence numbers are consecutive mod 2^16 across frames |
| Vp8.StreamReassembled | orca/video_player.go:425-469 | splitting at markers and stripping descriptors gives back the non-empty frames with their timestamps, nothing left over |
| Vp8.FramesRecovered | orca/video_player.go:425-469 | all frames are recovered exactly when none is empty |
| Vp8.ReadFrame | orca/video_player.go:396-412 | a frame of 1 to 2000000 bytes and the rest of the stream, or failure |
| Vp8.PumpVideo | orca/video_player.go:473-522 | what is sent of a stream up to the reader's failure, the cancellation or the first refused packet, and which of them ended it, with PTS converted to 90 kHz |
| Vp8.PumpedFramesArrive | orca/video_player.go:396-469 | whatever bytes the stream holds, the receiver recovers exactly the frames read before the cancellation, or the first of them when a packet was refused |
| Vp8.IvfRoundTrip | orca/video_player.go:396-412 | a written frame is read back exactly when its size is acceptable |
| Vp8.OpusPacketizer.Wrap | orca/audio_codec.go:100-121 | the k-th packet has number k mod 2^16, time 960k mod 2^32, and the marker whenever the number is zero |
| Segmenter.SpeakerDemux.Feed | orca/voice_local.go:228-303 | one packet's whole effect: the counters go on standing for the frames buffered since the last cut of that source, and what is handed on is what the packet history says |
| Segmenter.SpeakerDemux.Flush | orca/voice_local.go:290-325 | the buffer is emptied and its mono 16 kHz bytes handed on if there is room; a stream without samples is left alone |
| Segmenter.SpeakerDemux.Count | orca/voice_local.go:248-275 | a decoded frame is noted and its stream kept, flushed or emptied as the counters say |
| Segmenter.SpeakerDemux.DropBuffer | orca/voice_local.go:278-288 | samples and counters of one stream are reset, no other stream touched |
| Segmenter.NothingLost | orca/voice_local.go:248-303 | emitted, dropped and buffered frames concatenate in order to everything fed |
| Segmenter.SegmentsWellCut | orca/voice_local.go:258-274 | emitted segments have at least 15 loud frames and end in exactly 75 silent ones or are exactly 1500 long; dropped ones have fewer than 15 and end in exactly 75; no segment could have been cut earlier |
| Segmenter.ClosesWithSamples | orca/voice_local.go:290-296 | whenever an utterance is due the buffer holds a sample, even if frames may decode to nothing, so flushing always resets the counters |
| Segmenter.CountersBounded | orca/voice_local.go:180-197 | after each packet a stream has fewer than 75 trailing silent frames and fewer than 1500 frames |
| Segmenter.StreamsIndependent | orca/voice_local.go:199-246 | however speakers interleave, what reaches the receiver from one source is exactly the utterances cut from that source's own frames whose last frame found room, in order |
| Segmenter.NothingMissed | orca/voice_local.go:199-246 | a receiver that keeps up gets every utterance cut from a source's frames |
| Segmenter.MeanSquareLoud | orca/audio_codec.go:264-273 | the mean square test as an integer comparison |
| Dsp.StereoToMono | orca/audio_codec.go:229-235 | each output is the truncated average of its pair |
| Dsp.MonoToStereo | orca/audio_codec.go:219-226 | each sample twice |
| Dsp.MonoOfStereo | orca/audio_codec.go:219-235 | doubling a channel and mixing down changes nothing |
| Dsp.Resample | orca/audio_codec.go:239-261 | the interleaved result, frame by frame and channel by channel, without reading out of bounds |
| Dsp.StaysBetween | orca/audio_codec.go:239-261 | the length, and every sample between its two surrounding source samples of the same channel |
| Dsp.ThirdsKept | orca/voice_local.go:307-310 | from 48 to 16 kHz every third sample is kept as it is |
| Dsp.BuildAtempoChain | orca/voice_local.go:505-522 | terminates for every positive target; stages within [0.5, 2], product the target, all but the last at one boundary |
| Playback.OneAtATime | orca/voice.go:75-107 | in every reachable state a channel has at most one live playback, the active one |
| Playback.DisarmKeepsNewer | orca/voice.go:93-107 | disarming ends the given playback if it is still live and never a newer one |
| Playback.ArmPreempts | orca/voice.go:79-91 | arming ends the channel's earlier playbacks and no other channel's |
| Playback.VoiceSubsystem.ArmTts | orca/voice.go:79-91 | the handle table and the live set after arming |
| Playback.VoiceSubsystem.DisarmTts | orca/voice.go:95-107 | the same after disarming |
| Playback.VoiceSubsystem.CancelTts | orca/voice.go:140-147 | the same after cancelling |

## Left out

- The index from nicks to user ids, and with it events attributed by nick because they carry no or an unknown user id: every event is modelled as carrying its user's id.
- UserState.User.OnNick: leaves out the stored nick and the nick change counter, which `handleNick` raises as well and no rule reads.
- Manager.Manager.IdentifyUser: leaves out the stored nick, ident, host and address and the nick index; no rule reads them.
- Manager.Manager.Observe: leaves out operator labels and the anomaly and classifier alerts, which do not feed back into what is proved, and attribution by nick.
- Message texts: length, hash, upper-case share, links, mentions and phishing phrases come in as numbers of the event; hash collisions are therefore part of the input.
- Stacking L1 alerts under the classifier's features with log scaling, its labels, its first-flagged gate and its alert; operator labels; the anomaly alerts. None of these feeds back into what is proved.
- Evidence strings, user ids and nicks inside alerts.
- Durations that saturate beyond 292 years, and window lengths other than one minute, which the code never asks for.
- The exponential and the square root are parameters of which only positivity, respectively the defining equation, is used.
- The anomaly half and the sorting of the explanation report.
- Saving models as JSON, and all other persistence.
- Rooms, peers and speaker streams are values in maps that the handlers reassign, not objects of their own; of what a goroutine does with a pointer to a replaced peer only the delivery of a track is captured.
- Locks and goroutine scheduling inside a handler. After a registration that never returns its room's lock stays taken, and the real handlers of that room wait too; runs of the model go on, so they include more than can happen.
- Published track ids are taken as already cleaned; an id that is empty after cleaning gets a time stamp, which is clean too.
- Tracks whose sender could not be added to a connection: additions succeed, so subscriptions are exactly what the code attempts.
- ICE candidates, presence and reaction broadcasts, TURN credentials, JSON marshalling and the bridge's socket; key-frame requests and the packet pump.
- Trimming of white space around promotion and demotion targets: targets come in trimmed.
- Renegotiation of several peers: each peer's protocol state depends on its own steps only, so it is stated for one.
- Which senders an answer has room for is an input, as is whether descriptions can be applied or created.
- Addressing.Match: letters, digits, white space and case folding are parameters, required only to keep separators apart from word characters and to fold words to words of the same length.
- Glob.GlobMatch: lower-casing is that of ASCII letters; texts are byte strings.
- Mask parsing (user, host, account and country masks), address ranges and descriptions: case analyses over unseen data.
- Conversation.Thread: turns carry no message id and no time; the tool name is that of the call; the text the summariser is shown and what it makes of it (an empty answer included) and `Reset` are not modelled.
- Follow-up windows, wake words, video playback control and speech pacing.
- MP3 and Opus decoding and encoding: a decoded packet is any list of samples, the empty one included.
- Dsp.Resample: exact fractions instead of floats; rates and channel counts of zero, on which the code divides by zero, are outside its precondition.
- Dsp.BuildAtempoChain: the stages are numbers, not text; a target that is not positive, on which the loops do not end, is outside its precondition, as its caller checks.
- Vp8.Packetizer.Packetize: header marshalling does not fail; payload type and SSRC are constants of the stream.
- Playback contexts carry no deadline; a parent's cancellation is a step.
- HTTP handlers, storage, tokens, uploads, simulation and training drivers: request plumbing and random generation.
