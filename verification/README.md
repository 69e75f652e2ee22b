# GoSpeak: verified model

GoSpeak is a voice server and client written in Go. This project models four parts of it in Dafny and proves
properties of them:

1. **Membership on the server.** The two-way channel index, the session table, the channel store, and the handlers,
   cleanups and timers that change them together. The classes in `ChannelIndex`, `Sessions`, `Store` and `Server`
   follow the source's own methods and are proved against step functions on values. Two transition systems are built
   on those steps. In `AtomicRuns` each handler is one atomic step; all copies of a session's channel agree, occupied
   channels exist and capacities are kept. In `Interleaving` each manager or store call is a step of its own and each
   connection goroutine has a program counter, as in the source, where no lock spans a handler.
   `Uninterrupted` and `RunsAreSchedules` connect the two: every atomic run is a schedule. `Races` gives
   schedules that end with each atomic invariant broken; `Windows` says exactly which step breaks capacity or
   existence, `Stranded` and `Records` exactly when a session ends up in a channel that is gone or with a wrong
   record. `Effects` says field by field what each atomic step changes and leaves alone. `TempTimers` and
   `LateTimers` follow the timers of temporary channels, `EvictionsApart` the records.
2. **The client's jitter buffer and drain loop** (`Jitter`, `Playout`): `uint32` sequence numbers that wrap, losses
   found by looking ahead, stale frames, and a cleanup that does not wrap.
3. **Channel trees**: import into a flat table, export from it, and the client's channel list (`TreeWalk`,
   `ChannelImport`, `ChannelExport`, `ChannelRoundTrip`, `Flatten`). Parents may dangle or lie on a cycle.
4. **The voice path and the control stream**: packet format, nonces, an abstract AEAD cipher, the relay decision,
   length-prefixed messages, voice activity detection and mixing (`VoicePacket`, `VoicePath`, `Server`, `Framing`,
   `Vad`, `Mixer`). `Conversation` joins client, server and client: what one member says the others hear.

Where the code and its documentation differ the model follows the code. `docs/protocol.md:139` gives the voice header
8 bytes, the code 14. `pkg/model/model.go:131` says that temporary channels are deleted when empty;
`UnwatchedIff` says when that is not so. The comment on `seqDiff` (`pkg/client/jitter.go:98-99`) says
it handles wrap-around; it is the plain distance, and `PushSurvives` shows what follows.

Properties one might expect that do not hold, each with a counterexample and the exact condition:

- A packet `d <= 10` ahead is not always followed by nothing: frames that had arrived early may then come into reach
  (`EarlyFrameFollows`; exact in `PacketEffect`). Nor is it always played: a cleanup across the wrap of the sequence
  numbers drops it (`CleanupAcrossWrap`; exact in `NextPacketPlayed`).
- A speaker who keeps talking is not always heard again: once their packets are more than 10 ahead nothing more is
  played (`SilentForever`; exact in `SilentIff`).
- An empty temporary channel does not always have a timer: not if nobody has entered it (`TempNeverEntered`), nor if
  its last member moved to another channel (`TempLeftBehind`; exact in `UnwatchedIff`).
- At lock granularity a channel can exceed its capacity (`CapacityOverrun`; exact in `CapacityThroughoutIff`), be
  occupied after its deletion by a user or a timer (`OccupiedButGone`, `OccupiedByTimer`; exact in
  `ExistenceAtRestIff`), and a session's record can disagree with the index for good (`RecordDisagrees`; exact in
  `RecordAgreesIff`).
- A mix of 65537 frames can wrap around (`ExactUpTo65536`).
- A control message is written in two calls without a lock per connection on the server. Messages whose halves are
  separated, and all that follow, are lost (`SplitFrameIsLost`; exact in `AllArriveIffTogether`).

Nothing outside Dafny is involved: `dafny verify dfyconfig.toml` checks everything.

## Model

| member | source | states |
|---|---|---|
| ChannelIndex.ChannelManager.constructor | pkg/server/channels.go:15-20 | A new manager knows no session and no channel. |
| ChannelIndex.ChannelManager.Join | pkg/server/channels.go:23-45 | The new index is the old one with the session moved; the previous channel (0 for none) is returned. |
| ChannelIndex.ChannelManager.Leave | pkg/server/channels.go:48-64 | The new index is the old one without the session; its channel (0 for none) is returned. |
| ChannelIndex.ChannelManager.Members | pkg/server/channels.go:67-77 | The occupants of a channel, each once, in no particular order. |
| ChannelIndex.ChannelManager.ChannelOf | pkg/server/channels.go:80-84 | The channel of a session, 0 for none. |
| ChannelIndex.ChannelManager.MembersCount | pkg/server/channels.go:87-91 | The number of distinct occupants. |
| ChannelIndex.CoherentMeaning | pkg/server/channels.go:9-12 | The two maps are inverse exactly if no member set is empty and membership in one is location in the other. |
| ChannelIndex.JoinedIsOneMove | pkg/server/channels.go:23-45 | A join keeps the maps inverse, changes one session's location, adds it to one channel and takes it from all others. |
| ChannelIndex.LeftIsOneRemoval | pkg/server/channels.go:48-64 | A leave keeps the maps inverse and forgets exactly one session. |
| ChannelIndex.LeaveUndoesJoin | pkg/server/channels.go:23-64 | Leaving after joining gives the index as if the session had only left; rejoining where it was restores the index. |
| ChannelIndex.EmptiedIsCoherent | pkg/server/control.go:513-519 | Emptying one channel keeps the maps inverse and touches no other channel. |
| ChannelIndex.LeftAllEmpties | pkg/server/control.go:513-519 | Removing the members of a snapshot one by one, in any order, empties exactly that channel. |
| Sessions.SessionManager.Create | pkg/server/session.go:38-65 | The first usable id drawn becomes a new session; ids are nonzero and were unused; no other session changes. |
| Sessions.SessionManager.GetSnapshot | pkg/server/session.go:68-85 | The current fields of a live session, or nothing. |
| Sessions.SessionManager.Remove | pkg/server/session.go:109-113 | Exactly that session is gone. |
| Sessions.SessionManager.SetUDPAddr | pkg/server/session.go:116-122 | Only the address of that session changes, if it is live. |
| Sessions.SessionManager.UpdateUserState | pkg/server/session.go:125-132 | Only the two flags of that session change, if it is live. |
| Sessions.SessionManager.SetChannel | pkg/server/session.go:135-141 | Only the channel of that session changes, if it is live. |
| Sessions.SameSourceIff | pkg/server/voice.go:87 | Same source exactly if the ports are equal and the addresses are, or one is the mapped form of the other. |
| Store.MemoryStore.CreateChannel | pkg/store/memory.go:159-172 | An invalid channel is refused with its first broken rule and nothing changes; a valid one gets the next id. |
| Store.MemoryStore.DeleteChannel | pkg/store/memory.go:175-180 | Exactly that channel is gone and its id is not given out again. |
| Store.MemoryStore.ListChannels | pkg/store/memory.go:183-197 | All channels, ordered by parent, then id. |
| Store.MemoryStore.GetChannel | pkg/store/memory.go:200-209 | The channel with that id, or nothing. |
| Store.MemoryStore.GetChannelByNameAndParent | pkg/store/memory.go:212-222 | Some channel with that name and parent exactly if there is one; the only one where names are unique. |
| Store.ValidateIs | pkg/model/model.go:151-175 | Each rule in numbers, the first broken one being reported. |
| Store.SpaceIs | pkg/model/model.go:153 | The white space that a name may not consist of, by code point. |
| Store.ListingUnique | pkg/store/memory.go:183-197 | The listing is determined by the table, whatever order the map is walked in. |
| Server.ControlHandler.constructor | pkg/server/control.go:35-42 | A new server has no sessions, members, connections or timers. |
| Server.ControlHandler.Connect | pkg/server/control.go:212-216 | A session with a fresh nonzero id and its connection are registered, or nothing changes. |
| Server.ControlHandler.Disconnect | pkg/server/control.go:217-241 | The session is gone from index, connection map and session table, and an emptied temporary channel gets a timer. |
| Server.ControlHandler.CleanupTempChannel | pkg/server/control.go:777-798 | A timer is started exactly for an existing, temporary, empty channel. |
| Server.ControlHandler.FireTimer | pkg/server/control.go:786-797 | A timer that goes off deletes its channel unless somebody is in it. |
| Server.ControlHandler.HandleJoinChannel | pkg/server/control.go:336-388 | A live session moves to an existing channel that is not full, in the index and in its record; else nothing changes. |
| Server.ControlHandler.HandleLeaveChannel | pkg/server/control.go:390-414 | A live session is in no channel any more, and an emptied temporary channel gets a timer. |
| Server.ControlHandler.HandleDeleteChannel | pkg/server/control.go:498-524 | The channel is gone, its members are in no channel, by index and by record; all others are untouched. |
| Server.ControlHandler.HandleCreateChannel | pkg/server/control.go:431-496 | Who may create what: temporary sub-channels where the parent allows them, ten seconds apart; all else with permission. |
| Server.ControlHandler.HandleImportChannels | pkg/server/control.go:869-901 | With permission the store becomes the imported one; sessions and members are untouched. |
| Server.ControlHandler.HandleUserState | pkg/server/control.go:424-429 | Only the two flags of the session change. |
| Server.ControlHandler.RelayPacket | pkg/server/voice.go:61-129 | One datagram: the new state, and each listener sent to exactly once. |
| Server.ControlHandler.Forward | pkg/server/voice.go:102-128 | The loop sends to each listener once and to nobody else. |
| AtomicRuns.StepInv | pkg/server/control.go:336-524 | Every atomic step keeps agreement, existence, capacity and the timers' channels. |
| AtomicRuns.EveryRunKeepsInv | pkg/server/control.go:336-524 | On every run: index coherent, records agree with it, occupied channels exist, capacities are kept, timers concern temporary channels. |
| AtomicRuns.JoinInv | pkg/server/control.go:342-356 | A join admitted below capacity, also a rejoin or a switch, keeps every capacity. |
| AtomicRuns.DeleteInv | pkg/server/control.go:498-524 | Deleting a channel leaves nobody in it, by index or record. |
| AtomicRuns.DisconnectInv | pkg/server/control.go:217-241 | A disconnect leaves no trace of the session. |
| AtomicRuns.EveryTimerSparesOthers | pkg/server/control.go:786-797 | After every run, a pending timer that goes off deletes its own channel only, exactly if nobody is in it, and that channel is temporary. |
| AtomicRuns.IdsNotReused | pkg/store/memory.go:164-180 | Over every run, a channel that is gone never returns, and one that exists never changed. |
| AtomicRuns.EveryRunKeepsTimers | pkg/server/control.go:226-237 | Over every run, an empty temporary channel last left by a leave or disconnect has a timer pending. |
| AtomicRuns.EveryEmptyingArmsUnlessSwitched | pkg/server/control.go:355-410 | After every run, the step that empties a temporary channel starts a timer exactly if it is not a join of another channel. |
| AtomicRuns.TempLeftBehind | pkg/server/control.go:355-388 | A run that leaves a temporary channel empty and without a timer. |
| AtomicRuns.EveryRunRelaysExactly | pkg/server/voice.go:77-119 | After every run, a datagram goes to exactly the other live, addressed, undeafened members of the channel a live, unmuted, consistent sender is in. |
| AtomicRuns.LargeChannelsAreSilent | pkg/server/voice.go:95-99 | Nobody in a channel whose id exceeds 16 bits is ever heard. |
| AtomicRuns.AddressSetOnce | pkg/server/voice.go:85-89 | No step changes a voice address that is set. |
| AtomicRuns.AddressKeptForLife | pkg/server/voice.go:82-89 | Over every run, a session keeps its first voice address until it disconnects. |
| Effects.LiveAfter | pkg/server/control.go:212-241 | Sessions and connections come by connecting and go by disconnecting, one at a time; a new session is in no channel, unmuted, undeafened and without a voice address. |
| Effects.ChannelAfter | pkg/server/control.go:336-524 | A session's channel changes only by its own admitted join, its own leave, or a permitted deletion of that channel, and then to exactly the new one or 0; there is room while fewer live sessions are in it than a positive limit. |
| Effects.IndexAfter | pkg/server/channels.go:80-84 | The index places every session where its record does. |
| Effects.FlagsAfter | pkg/server/control.go:424-429 | The two flags change only by the session's own update, each to its own value. |
| Effects.AddressAfter | pkg/server/voice.go:77-90 | A voice address is set exactly by the first datagram of at least 14 bytes that names its session, to where that came from, forwarded or not. |
| Effects.EveryAddressSet | pkg/server/voice.go:77-90 | The same over every run. |
| Effects.RowGone | pkg/server/control.go:498-511 | An existing channel goes exactly by a permitted deletion from a live session, or by its own timer when it is temporary and nobody is in it; no row is ever changed. |
| Effects.EveryRowGone | pkg/server/control.go:498-511 | The same over every run. |
| Effects.RefusedDeletion | pkg/server/control.go:499-507 | Without permission, or from a session that is not live, nothing changes. |
| Effects.PermittedDeletion | pkg/server/control.go:508-524 | The channel is gone, its members are in no channel by index and record, all else is as before. |
| Effects.Creation | pkg/server/control.go:431-496 | The created row carries the request's name, description, limit, parent and flags under the next id, exactly if the asker is entitled and the channel proper (64 bytes, ten seconds, and so on in numbers); else no row. |
| Effects.RowNew | pkg/store/memory.go:159-172 | Only a creation or an import adds a row, under a new id. |
| Effects.TimersAfter | pkg/server/control.go:777-798 | A timer starts exactly when the last member of an existing temporary channel leaves or disconnects, and ends exactly when it goes off. |
| Effects.BytesOfName | pkg/server/control.go:438-442 | Byte lengths add up, are at least the number of characters and at most four times it, and equal it exactly for ASCII. |
| Conversation.SpokenIsHeard | pkg/client/voice.go:69-88 | A client speaking in its session's channel is heard: every other addressed, undeafened member gets the datagram, decrypts the frame from it, and plays it if the speaker is new. |
| Conversation.HearEachOther | pkg/server/voice.go:82-119 | Two members who have each sent one datagram are from then on forwarded what the other says. |
| TempTimers.UnwatchedIff | pkg/server/control.go:777-798 | After every run, an existing empty temporary channel has no timer pending exactly if nobody has ever entered it or its last member left it for another channel while no timer was pending. |
| TempTimers.TempNeverEntered | pkg/server/control.go:431-496 | A run that creates a temporary channel nobody enters, without a timer. |
| LateTimers.VacantAreWatched | pkg/server/control.go:777-798 | At lock granularity, after every schedule that ends at rest, an existing empty temporary channel last left by a leave or disconnect has a timer pending. |
| Interleaving.NextInv | pkg/server/control.go:212-241 | Every lock-level step keeps the concurrent invariant. |
| Interleaving.EveryScheduleIsSafe | pkg/server/control.go:212-241 | Under every interleaving: the index is coherent, everyone in it or in the connection map is live, only temporary channels have timers. |
| Interleaving.FireSparesPermanent | pkg/server/control.go:786-797 | Under every interleaving a timer deletes no permanent channel. |
| Uninterrupted.SoloIsSchedule | pkg/server/control.go:274-284 | A goroutine running alone is one of the schedules. |
| Uninterrupted.JoinUninterrupted | pkg/server/control.go:336-388 | The lock-level steps of a join, uninterrupted, have the effect of the atomic step. |
| Uninterrupted.LeaveUninterrupted | pkg/server/control.go:390-414 | The same for a leave. |
| Uninterrupted.DisconnectUninterrupted | pkg/server/control.go:217-241 | The same for a disconnect. |
| Uninterrupted.ConnectUninterrupted | pkg/server/control.go:212-216 | The same for setting up a session. |
| Uninterrupted.CreateUninterrupted | pkg/server/control.go:431-496 | The same for creating a channel. |
| Uninterrupted.DeleteUninterrupted | pkg/server/control.go:498-524 | The same for deleting a channel, permitted or refused, whatever the order of the member snapshot. |
| Uninterrupted.ImportRefused | pkg/server/control.go:869-879 | An import without permission changes nothing. |
| Uninterrupted.TimerUninterrupted | pkg/server/control.go:786-797 | The same for a timer. |
| Uninterrupted.EvictAll | pkg/server/control.go:513-519 | The eviction loop takes out exactly the sessions of its snapshot, by index and record. |
| RunsAreSchedules.StepIsSchedule | pkg/server/control.go:288-334 | Each atomic step can be done by lock-level steps of the same request, with the same arguments and permission, that end with every handler finished. |
| RunsAreSchedules.EveryRunIsSchedule | pkg/server/control.go:288-334 | Every atomic run ends in a state that the lock-level system reaches too. |
| Races.CapacityOverrun | pkg/server/control.go:347-356 | A schedule after which, at rest, a channel for one has two members. |
| Races.OccupiedButGone | pkg/server/control.go:342-356 | A schedule after which, at rest, somebody is in a deleted channel. |
| Races.OccupiedByTimer | pkg/server/control.go:786-797 | A schedule after which, at rest, somebody is in a channel that a timer deleted, having joined between its count and its deletion. |
| Races.RecordDisagrees | pkg/server/control.go:513-519 | A schedule after which, at rest, a session's record says it is in no channel while the index says otherwise. |
| Records.RecordAgreesIff | pkg/server/control.go:355-519 | After every schedule that ends at rest, a session's record agrees with the index exactly if the last write to it named the channel the index did at that moment. |
| Records.NextTracked | pkg/server/control.go:355-519 | Every lock-level step keeps this up, except for records a goroutine is still about to write. |
| EvictionsApart.RecordsRightWhenApart | pkg/server/control.go:355-519 | After every schedule that ends at rest and in which no eviction of a session overlaps its own join, every record agrees with the index. |
| Stranded.GoneIff | pkg/server/control.go:498-524 | After every schedule that ends at rest, a session is in a channel that is gone exactly if it was gone when the session last entered, or a timer deleted it while the session was in it. |
| Stranded.ExistenceAtRestIff | pkg/server/control.go:498-524 | So occupied channels exist at rest exactly if there is no such session. |
| JoinOverlap.CapacityWhenJoinsApart | pkg/server/control.go:347-356 | Capacities hold under every schedule in which no two joins of a channel are between check and entry at once. |
| Windows.StepKeepsCapacityIff | pkg/server/control.go:347-356 | A lock-level step keeps the capacities exactly unless it enters a channel that is full by then. |
| Windows.CapacityThroughoutIff | pkg/server/control.go:347-356 | Over every schedule from a fresh start, capacities hold throughout exactly if no step enters a channel that has become full since its check. |
| Windows.ExistenceThroughoutIff | pkg/server/control.go:342-356 | Over every schedule from a fresh start, occupied channels exist in every state, also between the two halves of a deletion, exactly if no step enters a deleted channel or deletes an occupied one. |
| Windows.StepKeepsExistenceIff | pkg/server/control.go:342-356 | A lock-level step keeps occupied channels in the store exactly unless it enters a deleted channel or deletes an occupied one. |
| Jitter.Buffer.Gap | pkg/client/jitter.go:58-72 | How far the nearest frame is ahead, up to the limit of 10: it is stored there and nothing nearer is. |
| Jitter.JitterBuffer.Push | pkg/client/jitter.go:28-46 | The first packet starts the numbering; the payload is stored; more than 15 frames are cleaned up. |
| Jitter.JitterBuffer.Pop | pkg/client/jitter.go:51-79 | The next frame, or a loss if a frame is within 10 ahead, or nothing. |
| Jitter.JitterBuffer.Reset | pkg/client/jitter.go:82-87 | Empties the buffer and forgets that it was started; the next number stays. |
| Jitter.JitterBuffer.Cleanup | pkg/client/jitter.go:89-96 | Keeps exactly the frames whose plain distance from the next number is at most 15. |
| Jitter.PushIs | pkg/client/jitter.go:28-46 | A push in numbers: everything stored and the new frame, or if that is more than 15, exactly those within 15 of the next number on the number line. |
| Jitter.PopIs | pkg/client/jitter.go:51-79 | A pop in numbers: the next frame if stored, else a loss if one of the ten numbers after it is, else nothing. |
| Jitter.PopShrinks | pkg/client/engine.go:352-373 | Each successful pop makes (frames stored, distance to the nearest) smaller, so every drain ends. |
| Jitter.DrainLoop | pkg/client/engine.go:352-373 | The loop computes the drain: what it plays and the buffer it leaves. |
| Jitter.DrainExact | pkg/client/engine.go:352-373 | A drain plays consecutive numbers from the next on, each with its stored frame or as a loss, and keeps exactly the other frames. |
| Jitter.DrainCost | pkg/client/engine.go:352-373 | A drain makes at most 11 successful pops for each stored frame. |
| Jitter.DrainStops | pkg/client/engine.go:352-373 | It stops where none of the next 11 numbers is stored, and not before. |
| Jitter.PushSurvives | pkg/client/jitter.go:42-45 | A packet at most 10 ahead survives its own push exactly if no cleanup runs or the window does not cross the wrap. |
| Jitter.PacketEffect | pkg/client/engine.go:348-374 | A packet d ahead: nothing if d > 10 or it was dropped, else exactly d losses, then it, then exactly what comes into reach. |
| Jitter.PacketPlayed | pkg/client/engine.go:348-374 | It is played after d losses if and only if d <= 10 and it survives cleanup. |
| Jitter.NextPacketPlayed | pkg/client/engine.go:348-374 | The same after every sequence of packets, each pushed and drained. |
| Jitter.CleanupAcrossWrap | pkg/client/jitter.go:42-105 | After packet 2^32-5 and packets 7 to 21, packet 0, 4 ahead, is thrown away with everything stored. |
| Jitter.SilentIff | pkg/client/engine.go:322-375 | Nothing further is played exactly if each further packet is, when received, more than 10 ahead or thrown away across the wrap. |
| Jitter.SilentForever | pkg/client/engine.go:311-314 | Once all further packets are more than 10 ahead, as after a pause in which packets were discarded, nothing is ever played again. |
| Jitter.EarlyFrameFollows | pkg/client/engine.go:348-374 | A packet followed by a frame that had come early. |
| Jitter.FirstPacket | pkg/client/jitter.go:32-35 | The first packet is played at once. |
| Jitter.BufferBounded | pkg/client/jitter.go:42-96 | On every run of pushes, pops and resets at most 31 frames are stored. |
| Jitter.PopsConsecutive | pkg/client/jitter.go:51-79 | Between resets pops return consecutive numbers mod 2^32; none repeats within 2^32 pops. |
| Jitter.PopReturnsLatest | pkg/client/jitter.go:38-64 | A payload popped under a number is the one last pushed under it since the last reset. |
| Jitter.PlayoutInv | pkg/client/engine.go:348-374 | After any sequence of packets the buffer is drained and everything played has consecutive numbers from the first packet's on. |
| Playout.Engine.SpeakerFor | pkg/client/engine.go:324-338 | A speaker's decoder and buffer, made if missing and possible. |
| Playout.Engine.PushAndDrain | pkg/client/engine.go:348-374 | The frame is pushed and the speaker's buffer drained into its decoder; other speakers are untouched. |
| Playout.Engine.ProcessIncomingVoice | pkg/client/engine.go:322-375 | A packet is played only if it decrypts under its own header and nonce; its speaker is set up in any case. |
| Playout.SpeakersIndependent | pkg/client/engine.go:322-375 | However packets of several speakers are mixed, each decoder gets what its own speaker's authentic packets alone give. |
| TreeWalk.DepthBound | pkg/server/config.go:122-137 | No channel lies deeper than there are channels, cycles or not; this ends the recursion. |
| TreeWalk.WalkAllVisits | pkg/server/config.go:122-137 | A walk from root 0 meets exactly the rows whose chain of kept rows reaches 0, at their number of ancestors. |
| TreeWalk.WalkAllOnce | pkg/server/config.go:122-137 | It meets no row twice. |
| TreeWalk.WalkAllParentFirst | pkg/server/config.go:122-137 | It meets a row after its parent, one level deeper. |
| ChannelExport.CountChannels | pkg/server/config.go:101-107 | Counts all nodes of the tree. |
| ChannelExport.BuildChannelTree | pkg/server/config.go:122-137 | Ends for every listing with distinct nonzero ids and returns the tree below the given parent. |
| ChannelExport.ExportChannels | pkg/server/config.go:110-120 | The exported tree is that of the store's listing. |
| ChannelExport.ExportExact | pkg/server/config.go:101-137 | Export writes exactly the channels whose whole chain to the root is permanent, each once with its own fields, and as many as are counted. |
| ChannelImport.EnsureChannel | pkg/server/config.go:66-99 | Some channel of that name and parent is found or else created, children below it, the first error stops; only valid permanent channels are added. |
| ChannelImport.ImportChannels | pkg/server/config.go:50-64 | The same for a whole configuration, an error only skipping the rest of its own tree. |
| ChannelImport.MayEnsureUnique | pkg/server/config.go:66-99 | Where names are unique under a parent the outcome is determined. |
| ChannelImport.ErrorStops | pkg/server/config.go:92-97 | Below one parent a node that is neither found nor valid ends the work: what came before stays, what comes after is not looked at. |
| ChannelImport.BadRootSkipped | pkg/server/config.go:56-61 | At top level such a node is skipped and the others are imported as without it. |
| ChannelImport.CreatedStays | pkg/server/config.go:73-90 | A created channel carries the node's own fields, is permanent, and stays whatever fails below it. |
| ChannelImport.ImportIdempotent | pkg/server/config.go:56-99 | Importing a valid configuration twice is importing it once. |
| ChannelImport.ReimportOwnExport | pkg/server/config.go:56-137 | Importing the store's own export changes nothing. |
| ChannelRoundTrip.EnsuredEachRows | pkg/server/config.go:66-99 | Where no name is taken, import files the nodes under the next ids in preorder. |
| ChannelRoundTrip.ImportExportRoundTrip | pkg/server/config.go:56-137 | Importing a valid tree with distinct sibling names into an empty store and exporting gives back exactly that tree. |
| Flatten.Flattener.Group | ui/app.go:762-766 | Children are grouped by parent in list order. |
| Flatten.Flattener.Flatten | ui/app.go:769-777 | The recursion ends for every list with distinct nonzero ids and appends the lines below a channel. |
| Flatten.FlattenChannels | ui/app.go:760-780 | The whole list: each shown heading is followed by exactly its channel's users, in order and at its depth, then by the next heading or the end. |
| Flatten.LinesLaidOut | ui/app.go:769-777 | Line by line: user j of a heading stands j + 1 lines below it, and there are as many lines as headings and their users. |
| Flatten.ShownIffRooted | ui/app.go:767-778 | A channel is shown exactly if its parent chain reaches the root, indented by its number of ancestors. |
| Flatten.ShownOnce | ui/app.go:767-778 | No channel is shown twice. |
| Flatten.ShownAfterParent | ui/app.go:767-778 | A channel is shown after its parent, one step further in. |
| Flatten.ShownWithUsers | ui/app.go:769-777 | Every heading is followed by its users and nothing else is shown. |
| VoicePacket.MarshalHeader | pkg/protocol/protocol.go:48-55 | The 14 header bytes: session, sequence number, timestamp, channel, big-endian. |
| VoicePacket.Marshal | pkg/protocol/protocol.go:58-64 | Header, then payload. |
| VoicePacket.HeaderBytes | pkg/protocol/protocol.go:48-55 | The 14 bytes one by one. |
| VoicePacket.PutGet | pkg/protocol/protocol.go:50-53 | Reading back n big-endian bytes of a number below 256^n gives the number. |
| VoicePacket.GetPut | pkg/protocol/protocol.go:72-75 | Writing the number read from n bytes gives the same n bytes. |
| VoicePacket.UnmarshalWire | pkg/protocol/protocol.go:48-80 | Parsing a marshalled packet gives the packet back. |
| VoicePacket.WireUnmarshal | pkg/protocol/protocol.go:48-80 | Exactly inputs of at least 14 bytes parse, and marshalling the result gives them back. |
| VoicePath.BuildNonce | pkg/crypto/crypto.go:72-77 | Session, sequence number and four zero bytes. |
| VoicePath.NonceBytes | pkg/crypto/crypto.go:72-77 | The 12 bytes one by one. |
| VoicePath.NonceInjective | pkg/crypto/crypto.go:72-77 | Different session or sequence number, different nonce. |
| VoicePath.NonceRepeats | pkg/client/voice.go:69-88 | Among all packets a client has sent, two share a nonce exactly if they are a multiple of 2^32 apart. |
| VoicePath.VoiceClient.SetChannel | pkg/client/voice.go:62-66 | The channel id is cut to 16 bits. |
| VoicePath.VoiceClient.SendVoice | pkg/client/voice.go:69-88 | The counter goes up by one, wrapping; the datagram parses to the client's session, that number, the timestamp and the client's channel, and opening its payload with that nonce and its first 14 bytes gives the frame. |
| VoicePath.VoiceEndToEnd | pkg/client/engine.go:341-342 | A frame whose ciphertext is at most 1400 bytes, relayed as raw bytes, decrypts to itself, assuming only that open inverts seal. |
| VoicePath.ArrivesUnchangedIff | pkg/server/voice.go:107-119 | A packet arrives unchanged if and only if its payload is at most 1400 bytes; a longer one arrives cut. |
| VoicePath.HeaderReproduced | pkg/client/engine.go:341-342 | The header a receiver re-marshals is the first 14 bytes of the datagram. |
| Framing.WriteControlMessage | pkg/protocol/protocol.go:84-103 | What cannot be encoded or exceeds 65536 bytes is refused untouched; else length and payload are written as far as the connection lasts. |
| Framing.ReadControlMessage | pkg/protocol/protocol.go:106-128 | One message or the reason there is none, and what is left of the stream. |
| Framing.Receive | pkg/client/control.go:88-106 | The handler gets the messages up to the first failing read. |
| Framing.ReadIs | pkg/protocol/protocol.go:106-128 | A read in numbers: four bytes of length, at most 65536, as many bytes, and each of the four errors exactly where it belongs. |
| Framing.WriteIs | pkg/protocol/protocol.go:84-103 | A write in numbers: it succeeds exactly for a text of at most 65536 bytes on a connection that takes four more; the bytes are its length and the text. |
| Framing.FramesRoundTrip | pkg/protocol/protocol.go:84-128 | Reading the concatenated frames of a list gives exactly the list and leaves exactly the bytes behind it. |
| Framing.CutStream | pkg/protocol/protocol.go:106-128 | A stream cut after any number of bytes gives the messages whose frames are whole, then an error. |
| Framing.WrittenIsRead | pkg/protocol/protocol.go:84-128 | The reader gets exactly the messages whose write reported no error, wherever the connection breaks. |
| Framing.InterleavedRead | pkg/protocol/protocol.go:94-101 | However the two writes of each of several messages interleave, the reader gets exactly the messages whose frames are whole before the first separated pair, then an error. |
| Framing.AllArriveIffTogether | pkg/server/control.go:59-73 | All messages arrive, in the order of their length writes, exactly if no two halves are separated. |
| Framing.SplitFrameIsLost | pkg/server/control.go:744-755 | Two lengths in a row, then the payloads in either order: the reader fails before the first message. |
| Vad.VAD.constructor | pkg/audio/vad.go:27-34 | Nothing heard yet. |
| Vad.VAD.Process | pkg/audio/vad.go:38-65 | The frame is remembered; the verdict is whether one of the last holdTime + 1 frames was above the threshold of its moment. |
| Vad.VAD.IsActive | pkg/audio/vad.go:68-72 | The last verdict. |
| Vad.VAD.PreBufferedFrames | pkg/audio/vad.go:76-94 | The last min(n, size) frames, oldest first. |
| Vad.VAD.SetThreshold | pkg/audio/vad.go:97-101 | Only later frames are judged by the new threshold. |
| Vad.HoldMeaning | pkg/audio/vad.go:52-61 | The hold counter exceeds n exactly if one of the last holdTime - n frames was loud. |
| Vad.VerdictMeaning | pkg/audio/vad.go:52-65 | The verdict computed with the counter is the one about the last frames, for every history and hold time. |
| Mixer.MixFrames | pkg/audio/playback.go:108-133 | Silence for no frame, the frame itself for one; for 2 to 65536 frames the true sum at each position, or 32767 if it is above, or -32768 if it is below. |
| Mixer.MixSample | pkg/audio/playback.go:116-131 | The same for the specification. |
| Mixer.MixTwo | pkg/audio/playback.go:116-131 | For two frames the sum is that of their two samples, a frame that has ended adding 0. |
| Mixer.SumIs | pkg/audio/playback.go:118-123 | The true sum: 0 for no frames, and one more frame adds its sample or 0. |
| Mixer.NoOverflow | pkg/audio/playback.go:118-123 | With at most 65536 frames no partial sum leaves the int32 range. |
| Mixer.ExactUpTo65536 | pkg/audio/playback.go:116-131 | All mixes of n frames are the true sums clamped, exactly if n is at most 65536. |
| Mixer.MixOrder | pkg/audio/playback.go:108-133 | The mix does not depend on the order of the frames. |

## Left out

- The SQLite store (`pkg/store/store.go`): SQL behind a library; the store modelled is `MemoryStore`.
- TLS, sockets, certificates, signals, metrics and logging: a connection is a token, and sending to it changes no state, so broadcasts and responses do not appear. `Framing` models the stream itself.
- JSON and YAML text: the model starts from parsed values. `Framing` takes the codec as a parameter and assumes only that decoding inverts encoding.
- Encryption, hashing and key generation: the cipher is a pair of functions of which only "open inverts seal" is assumed. Session ids and map iteration orders are arbitrary choices.
- Authentication, tokens, bans, kicks, roles and the permission table: whether a request is permitted is a parameter of each handler.
- Chat, role changes and data export as handlers, username checks, text sanitising and the cutting of descriptions: one-branch facts.
- Clocks: the five-minute grace period is a pending timer that may fire at any later step, and the pause between two temporary channels compares times passed in. Creation times of channels are not stored.
- Decoding, playback and capture of audio, devices, hotkeys and the user interface except the channel list.
- Interleaving.EveryScheduleIsSafe: the voice goroutine appears at lock granularity only where it writes, setting an address; that a relayed packet reaches exactly the members of one instant is claimed for atomic steps only.
- Interleaving.EveryScheduleIsSafe: agreement of records with the index, existence and capacity are not claimed at lock granularity, because `Races` shows that they fail there; `Windows`, `Stranded` and `Records` give the conditions.
- Sessions.SessionManager.Create: the draws are a finite list; the source draws until an id is free.
- Mixer.ExactUpTo65536: one frame is excluded, because it is passed through at its own length rather than mixed.
- Channel ids and the pre-buffer index of the voice detector are unbounded integers; the source's 64 bits are not exhausted.
- Two goroutines sending on one `VoiceClient` at once: the counter is modelled for one sender, as the capture loop is.
- Energy of a frame (floating point): a parameter of `Vad`; only its comparison with the threshold is used.
