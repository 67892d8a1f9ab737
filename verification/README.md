# Neko, modelled and proved

Neko streams a desktop over WebRTC. This project models the parts of the Go server in which state is
shared between many callers, and of its C and wire-format helpers, and proves what those parts rely on:

- **Streams, tracks, private mode.** A stream sink owns an optional pipeline and two maps of listeners,
  the regular ones and a lobby of those that wait for a keyframe. A track is registered at the sink it
  streams from, a peer owns two tracks and three reasons to pause them, and the session manager drives one
  of these from private mode.
- **Sessions.** WebSocket peers come, go and are replaced under delayed-disconnect timers; the manager
  keeps two indexes, a file, and one host.
- **Bandwidth estimation.** A timed loop that decides when to change streams, and the trend detector it asks.
- **Plugins.** A pointer graph with placeholders, cycle rejection by name search, and a memoised start.
- **Input.** A debounce map and a C linked list that must agree; touch messages in a 12-byte format.

## How it is laid out

Whatever the original changes in place is a class here (`Streams`, `StreamSelector`, `Peers`, `Sessions`,
`Plugins`, `Trend`, `Keyboard`, `Touch`). Each of its methods is proved against a function on values, and
the theorems are about those functions and about all runs of them: `SinkSpec`, `TrackSpec`, `PeerSpec`,
`PeerRuns`, `Delivery`, `BitrateRing`, `SinkHistory`, `PrivateMode`, `Exposure`, `PrivateModeCalls`,
`PrivateModeRaces` for streams; `ReconnectSpec`, `ReconnectHistory`, `ManagerSpec`, `ManagerEffects`,
`HostControl`, `TokenIndex` for sessions; `DependencyGraph`, `PluginRegistry`, `PluginNames`, `PluginStart` for
plugins; `Estimator`, `Trend`; `KeySpec`, `KeyHistory`, `TouchSpec`, `TouchHistory` for input. The modules named
after a history state what a run has come to from its calls alone.

In a run every call of a mutex-guarded method is one step. Where no mutex guards a call as a whole,
`PrivateMode` takes it apart: connection requests, profile updates and the loop of a settings change look at
private mode in one step and pause a peer in a later one. In `HostControl` a request can be checked in one step
and granted in a later one. `LockOrder` takes locking itself apart.

Pipeline construction, plugin starts, keymap lookups, clock readings, bandwidth estimates and the order
in which Go visits a map are inputs: every theorem holds for all of them. `works`, `starts` and the like say
how such an outside call ends. Byte counts are integers and ratios are reals.

`hide` statements at the top of proofs keep definitions out that the proof does not need.

## What the proofs found

- Moving a listener from a sink to itself locks one mutex twice. A set of threads can deadlock exactly if
  one of them does that (`LockOrder.DeadlockIffSelfMove`); the only caller, `SetStream`, rules it out.
- Private mode is not airtight, in three ways. A video or audio request that reaches a new peer from a second
  connection, before the connection request has looked at the mode (internal/websocket/handler/signal.go:17-25), is
  not held back (`PrivateModeRaces.EarlyRequestExposes`); which steps expose somebody is `Exposure.PrivacyIff`. If
  the offer fails, the new peer is already set (internal/webrtc/manager.go:533-538) and the connection request ends
  without that look: then a guest can watch for good (`PrivateModeRaces.FailedOfferSlips`). So it can after a call
  that looked at the mode before it changed and unpauses a peer after the settings change has paused it
  (internal/session/session.go:57-60, internal/session/manager.go:376-387; `PrivateModeRaces.StaleLookSlips`).
  Without a stale or an abandoned step private mode is exact for everybody whom no call under way is concerned
  with (`PrivateMode.SeenToIff`, `PrivateMode.PrivateModeSafe`); and exactly when, throughout a run, whoever
  watches under private mode is about to be stopped is `Exposure.WatchersAreDueIff`.
- Taking IsAdmin from the host while private mode or locked controls is on leaves a host who may not be
  one (`HostControl.UpdateKeepsIff`), and so does a request that is granted later than it was checked, to a
  session that is not eligible any more. That is so exactly if it was disconnected or deleted, lost a right, or
  hosting was restricted, in between, and that was not undone (`HostControl.LateGrantIsWrongIff`). Two requests can also take control from
  each other without hosting being implicit (`HostControl.RacingRequests`).
- A host who loses control by a settings change, or by losing CanHost, leaves pressed what it has pressed: all
  keys are released only when it lets go or its connection ends (`HostControl.KeysAreResetIff`).
- A WebSocket peer object that is dropped, replaced and then connected again is taken down by its old timer
  (`ReconnectSpec.ComingBackIsDisconnected`). No caller does that: internal/websocket/manager.go:224-248 makes a
  new peer for every connection. The comment at internal/session/session.go:118-120 promises that a reconnect
  cancels the disconnect; what the code does is to ignore timers of peers that are not current.
- The published bitrate is that of the previous second while every second carries bytes. With idle seconds it
  is right or wrong depending on the lengths of the gaps alone: `BitrateRing.RateIsRightIff` says when. A single
  idle second does no harm by itself, but then two seconds with samples on end publish a wrong rate
  (`BitrateRing.GapBreaksNext`).
- The nearest-bitrate choice is right for every set of measured bitrates exactly up to a request of
  2^63 + 1, where the 64-bit difference wraps (`StreamSelector.NearestRightIff`).
- A bandwidth downgrade by stalling has waited for StalledDuration exactly if some tick before it found the
  connection not neutral or with room (`Estimator.StallHasWaitedIff`). Otherwise it has waited for nothing: the
  very first tick can attempt one (`Estimator.FirstTickDowngradesIff`).
- A plugin search that runs into a placeholder panics (internal/plugins/dependency.go:23), and so does a
  start that reaches one (internal/plugins/dependency.go:50); both are outcomes in the model. Until the first
  rejection an addition goes through exactly if no dependency would close a cycle or leads to a placeholder
  other than the plugin's own (`PluginRegistry.AddedIff`), and a start goes through exactly if every reachable
  node holds a plugin that starts (`PluginStart.StartSucceedsIff`). Adding A, which depends on a missing B, and
  then C, which depends on A, panics (`PluginRegistry.PlaceholderPanics`).
- With a positive threshold a full window of equal values would point down (`Trend.DirectionIff`); the configured
  threshold is -0.5, so that of eight distinct estimates 22 of the 28 pairs have to fall
  (`Estimator.EightEstimates`).
- A key pressed while the keymap had no keycode for it can be released under another one
  (`KeySpec.ReleaseMatchesIff`).
- Two touch ids that agree in their low 16 bits look the same on the wire. Touch messages are well formed
  exactly as long as no such touch begins while the other is open (`TouchSpec.WellFormedIffNoAlias`).

## Model

| member | source | states |
|---|---|---|
| LockOrder.DeadlockFree | internal/capture/streamsink.go:211-290 | for any number of threads that add, remove and move listeners between distinct sinks under the track, peer and sink mutexes, after any schedule of single lock and unlock steps, some unfinished thread can step |
| LockOrder.DeadlockIffSelfMove | internal/capture/streamsink.go:249-290 | a set of threads can reach a deadlock if and only if some call in it moves a listener from a sink to the same sink |
| LockOrder.SelfMoveDeadlocks | internal/capture/streamsink.go:249-290 | wherever the self-move stands in whichever thread's program, there is a schedule that ends in a deadlock |
| SinkSpec.AddKeeps | internal/capture/streamsink.go:211-228 | adding files the listener and nobody else, or fails and changes nobody's registration; the sink has a pipeline just while it has listeners, in failed starts too |
| SinkSpec.RemoveKeeps | internal/capture/streamsink.go:230-245 | removing takes out that listener only, and the pipeline with the last one |
| SinkSpec.MoveKeeps | internal/capture/streamsink.go:249-290 | both sinks stay in order; a failed move leaves both as they were |
| SinkSpec.MoveIsRemoveThenAdd | internal/capture/streamsink.go:249-290 | a successful move is a removal at the source and an addition at the target |
| SinkSpec.SampleKeeps | internal/capture/streamsink.go:374-396 | no sample, keyframe or not, adds or drops a registration or disturbs the sink's order |
| SinkSpec.ResizeKeeps | internal/capture/streamselector.go:41-59 | after a destroy and a successful recreate the sink has a pipeline exactly if it has listeners |
| Delivery.MapsFollowHistory | internal/capture/streamsink.go:174-209 | after any run of calls the two maps are what the history says: filed if registered and not removed since, a regular listener if a keyframe has come since on a video sink |
| Delivery.ReceivesIff | internal/capture/streamsink.go:374-396 | a sample reaches a listener if and only if it registered before, was not removed since, and on a video sink a keyframe has come since, this one included |
| Delivery.DeliveryIsContiguous | internal/capture/streamsink.go:374-396 | what a listener receives while registered is exactly the sink's output from the first keyframe after registration on, without a gap; from registration on at an audio sink |
| SinkHistory.RateIsCounter | internal/capture/streamsink.go:353-396 | the counters of a sink are always those of the samples that have come since its last pipeline went |
| SinkHistory.SinkPublishesPreviousSecond | internal/capture/streamsink.go:353-396 | so from the third second on a sink that gets bytes in every second publishes the total of the second before |
| SinkHistory.KeyframeDueIff | internal/capture/streamsink.go:174-199 | a keyframe is due exactly if a pipeline was started, or the first listener entered the lobby of a running one, and none has come since |
| BitrateRing.BucketsHoldOneSecond | internal/capture/streamsink.go:353-372 | with bytes in every second, each of the three buckets holds the bytes of one second or of none |
| BitrateRing.PublishedRateIsPreviousSecond | internal/capture/streamsink.go:353-372 | from the third second on the published rate is the byte total of the second before |
| BitrateRing.RateIsRightIff | internal/capture/streamsink.go:353-372 | for every ordered history in which a second that has samples carries bytes: the published rate is the byte total of the second before if and only if the gaps between the seconds that had samples say so |
| BitrateRing.RateAlwaysRightIff | internal/capture/streamsink.go:353-372 | the same for every moment of a run, from the third second on |
| BitrateRing.GapBreaksNext | internal/capture/streamsink.go:353-372 | after a gap that moves the buckets out of their roles, such as one idle second, two seconds with samples on end publish a wrong rate |
| BitrateRing.IdleSecondBreaksRate | internal/capture/streamsink.go:353-372 | a history with an idle second after which the rate is wrong |
| BitrateRing.IdleSecondCanBeRight | internal/capture/streamsink.go:353-372 | and one after which it is right |
| TrackSpec.SetStreamKeeps | internal/webrtc/track.go:118-145 | afterwards the track is filed at exactly its stream if it is not paused and nowhere else; a failure leaves it filed as before |
| TrackSpec.RemoveStreamKeeps | internal/webrtc/track.go:147-163 | afterwards the track is filed nowhere |
| TrackSpec.SetTrackPausedKeeps | internal/webrtc/track.go:174-196 | a paused track is filed nowhere, an unpaused one at its stream; if it cannot be added it stays paused |
| PeerSpec.SetPausedKeeps | internal/webrtc/peer.go:314-325 | both tracks are filed as their flags say, and paused or disabled wins over the track's own flag |
| PeerSpec.SetVideoKeeps | internal/webrtc/peer.go:338-411 | the same on every path of SetVideo, including its two error returns; the peer's own paused flag is untouched |
| PeerSpec.SetAudioKeeps | internal/webrtc/peer.go:436-465 | the same for SetAudio |
| PeerRuns.SetVideoIs | internal/webrtc/peer.go:338-411 | the whole peer after SetVideo: the disabled flag is the requested one on every path, stream and automatic mode are the requested ones if there is no error and as before otherwise, exactly when the track is paused, exactly when there is which error, and a change is reported exactly if one of the three changed |
| PeerRuns.SetAudioIs | internal/webrtc/peer.go:436-465 | the whole peer after SetAudio, and a change is reported exactly if the flag changed |
| PeerRuns.SetPausedIs | internal/webrtc/peer.go:314-325 | the whole peer after SetPaused: the flag is the given one, the reasons to disable stay, and a track is paused if any of its reasons holds |
| PeerRuns.FlagsFollowRequests | internal/webrtc/peer.go:314-465 | after any run of the three calls, whatever happens to the sinks in between, the flags are what was asked for last, a track is unpaused only if neither the last SetPaused nor the last request about it says otherwise, and exactly then if the pipelines could be built |
| PeerRuns.StreamFollowsRequests | internal/webrtc/peer.go:362-382 | the video streams from what the last request that named a stream and met no error has named |
| PeerRuns.AutoFollowsRequests | internal/webrtc/peer.go:384-401 | and switches by itself exactly if the last request without an error that said anything about it turned it on, and there is an estimator that is not passive |
| PrivateMode.ReachableOk | internal/websocket/handler/signal.go:12-61 | in every reachable state of sessions, peers, tracks, sinks and calls under way, under all interleavings of the calls' steps and with pipelines that fail, sinks, tracks and peers agree |
| PrivateMode.SingleRegistration | internal/webrtc/track.go:118-196 | in every reachable state a track is registered at a sink exactly if it is not paused and streams from it; so at one sink at most, in one map only |
| PrivateMode.PipelineIffListened | internal/capture/streamsink.go:154-172 | in every reachable state a sink outside a resize has a pipeline exactly while it has a listener, and a keyframe is due for its lobby |
| PrivateMode.StepSeenIff | internal/session/manager.go:374-389 | from a state in which every filed session's peer is paused exactly if private mode applies to it, or a call under way will see to that, a step leads to another one if and only if it is neither a SetPaused after an outdated look that no call will correct, nor the failure of a connection request that was the only call to pause a peer which private mode applies to |
| PrivateMode.SeenToIff | internal/session/session.go:57-60 | so it is throughout a run if and only if no step of it is of these kinds |
| PrivateMode.SettledIsExact | internal/session/session.go:71-73 | in runs without such steps, the peer of a session that no call under way is concerned with is paused exactly if private mode applies to the session |
| PrivateMode.PrivateModeSafe | internal/session/manager.go:367-389 | and a session to which private mode applies has no track registered anywhere, through settings changes, profile updates, new peers, failed offers, requests, stream switches, resizes and failed pipelines |
| PrivateModeCalls.SettingsTakeEffect | internal/session/manager.go:374-389 | a settings change that turns private mode on or off and is left alone comes to its end with the current peer of every filed session paused exactly if private mode applies to it, and every other peer as it was |
| Exposure.VideoJoinsIff | internal/webrtc/peer.go:338-411 | SetVideo leaves the video of any peer streaming exactly if it leaves it unpaused, enabling it with a sink that can start if need be, and there is a stream already or the request names one that can start |
| Exposure.AudioJoinsIff | internal/webrtc/peer.go:436-465 | SetAudio leaves the audio of any peer streaming exactly if it enables it, the peer is not paused and its sink can start, or it streams and is not touched |
| Exposure.PauseJoinsIff | internal/webrtc/peer.go:314-325 | SetPaused leaves a peer streaming exactly if it unpauses it and one of its tracks is not disabled, has a stream, and can be unpaused |
| Exposure.StepHidesIff | internal/webrtc/peer.go:314-411 | from any state in which nobody under private mode watches, a step leads to another one if and only if it does not turn the mode on, or take the admin right, while somebody concerned watches, nor make somebody under private mode stream by a request or by unpausing |
| Exposure.HiddenIff | internal/websocket/handler/signal.go:17-59 | so it is throughout a run if and only if no step of it does that |
| Exposure.PrivacyIff | internal/session/session.go:71-73 | in other words: throughout a run no filed session that private mode applies to has a track registered at any sink, if and only if no step exposes anybody |
| Exposure.StepGuardsIff | internal/session/manager.go:374-389 | from any state in which whoever watches under private mode is about to be stopped by a call under way, a step leads to another one if and only if it does not make somebody stream under private mode whom no call will stop, nor is the failure of a connection request that was the only call to stop somebody |
| Exposure.GuardedIff | internal/session/session.go:57-60 | so it is throughout a run if and only if no step of it does that |
| Exposure.WatchersAreDueIff | internal/websocket/handler/signal.go:17-25 | in other words: throughout a run every filed session that has a track registered at a sink although private mode applies to it is about to be stopped by a call under way, if and only if nobody slips through in any step |
| PrivateModeRaces.EarlyRequestExposes | internal/websocket/handler/signal.go:17-25 | a run in which a request comes before the look and a guest watches under private mode |
| PrivateModeRaces.StaleLookSlips | internal/session/session.go:57-60 | a run in which a profile update looks before the settings change and unpauses after it, and a guest watches under private mode with no call under way |
| PrivateModeRaces.FailedOfferSlips | internal/webrtc/manager.go:533-538 | a run in which the offer fails after the peer was set, so that private mode is never looked at, and a guest watches under it with no call under way |
| Streams.StreamSink.AddListener | internal/capture/streamsink.go:211-228 | the object changes as SinkSpec.AddListener says |
| Streams.StreamSink.RemoveListener | internal/capture/streamsink.go:230-245 | the object changes as SinkSpec.RemoveListener says |
| Streams.StreamSink.MoveListenerTo | internal/capture/streamsink.go:249-290 | both objects change as SinkSpec.MoveListener says |
| Streams.StreamSink.CreatePipeline | internal/capture/streamsink.go:303-351 | a second pipeline is refused, a failed one leaves none, and a new one owes a keyframe; the counters stay as they are |
| Streams.StreamSink.DestroyPipeline | internal/capture/streamsink.go:398-414 | afterwards there is no pipeline and no counter, and the listeners are as they were |
| Streams.StreamSink.SaveSampleBitrate | internal/capture/streamsink.go:353-372 | the three buckets and the published rate change as BitrateRing.SaveSampleBitrate says |
| Streams.StreamSink.OnSample | internal/capture/streamsink.go:374-396 | a keyframe moves the lobby; then every listener gets the sample once and nobody else does |
| Streams.Track.SetStream | internal/webrtc/track.go:118-145 | the track and both sinks change as TrackSpec.SetStream says, all other sinks not at all |
| Streams.Track.RemoveStream | internal/webrtc/track.go:147-163 | the track and its sink change as TrackSpec.RemoveStream says |
| Streams.Track.SetPaused | internal/webrtc/track.go:174-196 | the track and its sink change as TrackSpec.SetTrackPaused says |
| Peers.WebRTCPeer.constructor | internal/webrtc/manager.go:268-533 | a new peer has no video stream, and its audio is on the audio sink, disabled and paused |
| Peers.WebRTCPeer.SetPaused | internal/webrtc/peer.go:314-325 | peer, tracks and sinks change as PeerSpec.SetPaused says |
| Peers.WebRTCPeer.SetVideo | internal/webrtc/peer.go:338-411 | peer, tracks and sinks change as PeerSpec.SetVideo says, where the request's stream is what the selector is answered with in the state in which it is looked up, after the video has been enabled or disabled |
| Peers.WebRTCPeer.SetAudio | internal/webrtc/peer.go:436-465 | peer, track and sinks change as PeerSpec.SetAudio says |
| StreamSelector.NeighboursByID | internal/capture/streamselector.go:69-103 | Lower gives the nearest id with a stream after the last place of the id in the list, Higher the nearest before the first, whichever ids have streams, and an id that is not listed has neither |
| StreamSelector.LowerAndHigherAreInverse | internal/capture/streamselector.go:69-103 | with distinct ids that all have streams they undo each other, and fail exactly at the two ends |
| StreamSelector.NearestIsRight | internal/capture/streamselector.go:161-206 | the best difference belongs to the largest bitrate not above the request, or else to the smallest above it |
| StreamSelector.NearestRightIff | internal/capture/streamselector.go:188-191 | that is so for all sets of measured bitrates if and only if the request is at most 2^63 + 1 |
| StreamSelector.SortDiffs | internal/capture/streamselector.go:200-202 | the differences are sorted by the comparator and are the same ones |
| StreamSelector.StreamSelector.GetLowerByID | internal/capture/streamselector.go:73-87 | the loop returns what the walk down the list gives |
| StreamSelector.StreamSelector.GetHigherByID | internal/capture/streamselector.go:90-103 | the loop returns what the walk up the list gives |
| StreamSelector.StreamSelector.NearestBitrate | internal/capture/streamselector.go:161-206 | a considered stream with the best difference, or the first of the list if none is considered |
| StreamSelector.StreamSelector.GetStream | internal/capture/streamselector.go:69-158 | an id wins over a bitrate; which stream is found for each kind of request by id and by bitrate, given the listeners and bitrates of the streams |
| StreamSelector.StreamSelector.DestroyPipelines | internal/capture/streamselector.go:41-47 | every stream with listeners is as SinkSpec.BeforeResize says, the others unchanged |
| StreamSelector.StreamSelector.RecreatePipelines | internal/capture/streamselector.go:49-59 | after success every stream with listeners has a pipeline; after a failure each is either done or untouched, and some stream could not be recreated |
| ReconnectSpec.ReconnectSafety | internal/session/session.go:89-196 | in every run of connects, delayed and immediate disconnects and timer callbacks, connected means that there is a peer, watching implies a WebRTC peer, at most one timer runs at a time, and between two disconnected events there is a connected one |
| ReconnectSpec.ReplacedTimerChangesNothing | internal/session/session.go:124-132 | the callback of a timer whose peer is not current changes nothing about the session |
| ReconnectSpec.DroppedHasLiveTimer | internal/session/session.go:138-156 | at every moment of every run a current peer that was dropped has a timer that is running or about to call back |
| ReconnectSpec.LiveTimerIffDropped | internal/session/session.go:138-156 | and if no peer object ever came back, only a dropped one has |
| ReconnectSpec.LiveMeansDroppedIff | internal/session/session.go:138-156 | throughout a run only dropped peers have a live timer, if and only if no peer object ever comes back |
| ReconnectSpec.OnlyDroppedIsDisconnected | internal/session/session.go:141-143 | then a timer disconnects a session only if its current peer was dropped |
| ReconnectSpec.ComingBackIsDisconnected | internal/session/session.go:89-98 | in any run, each timer left for a peer that comes back, running or run out, takes it down when it rings, although nobody dropped it since |
| ReconnectSpec.DroppedWillDisconnect | internal/session/session.go:141-176 | for a dropped peer there is a timer whose running out and callback disconnect the session and emit one event |
| ReconnectSpec.ImmediateStopsTimer | internal/session/session.go:146-151 | after an immediate disconnect no timer is left running |
| ReconnectHistory.PeerIff | internal/session/session.go:89-196 | a session has a WebSocket peer exactly if that connected and since then no other has, it was not disconnected at once or destroyed, and no timer for it called back |
| ReconnectHistory.AnnouncedIs | internal/session/session.go:89-176 | after any run exactly the connects of peers that were not current, and the ends of current ones that no other replaced, have been announced, in order |
| ReconnectHistory.TimerRunsIff | internal/session/session.go:124-176 | a timer runs exactly if a delayed disconnect of the peer current then has started it, and since then no other has, nothing has ended the current peer for good, and it has not run out |
| ReconnectHistory.WebRTCPeerIff | internal/session/session.go:218-275 | a session has a WebRTC peer exactly if that was set, no other since, and it has not disconnected since |
| ReconnectHistory.WatchingIff | internal/session/session.go:236-275 | and it watches exactly if the peer current then has connected, and none that was current has disconnected since |
| HostControl.HostIsEligible | internal/websocket/handler/control.go:34-64 | in every run of requests, grants, releases, connects, disconnects, creations, updates, deletions, settings changes, WebRTC changes and restarts in which nobody loses IsAdmin and no request is granted to a session that is not eligible by then, a set host is an existing connected session with CanHost, and an admin while private mode or locked controls is on |
| HostControl.HostAlwaysEligibleIff | internal/session/manager.go:200-226 | the host is so throughout a run if and only if no update in it revoked the admin right of a host whom hosting restrictions apply to and left the host in, and no late grant went to a session not eligible by then |
| HostControl.UpdateKeepsIff | internal/session/session.go:44-61 | an update keeps the host eligible exactly unless it does that |
| HostControl.RequestKeepsIff | internal/websocket/handler/control.go:34-64 | a request keeps it exactly unless it gives control to a session that is not connected |
| HostControl.ReleaseKeeps | internal/websocket/handler/control.go:19-32 | a release keeps it |
| HostControl.FreeControlGoesToEligible | internal/websocket/handler/control.go:34-64 | control that nobody has is given to a connected session that asks if and only if it is eligible |
| HostControl.RequestAnswers | internal/websocket/handler/control.go:34-64 | each answer to a request, as an if-and-only-if over who is host, who is eligible and whether hosting is implicit |
| HostControl.ReleaseAnswers | internal/websocket/handler/control.go:19-32 | a release succeeds exactly for the host, and then nobody is |
| HostControl.DisconnectedKeeps | internal/websocket/handler/session.go:45-53 | a disconnect keeps it |
| HostControl.DeleteKeeps | internal/session/manager.go:133-157 | a deletion keeps it |
| HostControl.ChangeKeeps | internal/session/manager.go:367-401 | a settings change keeps it, in any order of the loop |
| HostControl.GrantKeepsIff | internal/websocket/handler/control.go:61 | a grant, whenever it comes, keeps the host eligible exactly if the session is eligible then |
| HostControl.PromptGrantIsRight | internal/websocket/handler/control.go:34-61 | a request of a connected session that is granted at once goes to an eligible session |
| HostControl.StepQualifiesIff | internal/websocket/handler/control.go:34-64 | after any step a session is eligible if and only if it was and the step does not disconnect or delete it, take a right, restrict hosting against it or restart the manager; or it was not and the step connects it, gives a right or lifts a restriction |
| HostControl.LateGrantIsWrongIff | internal/websocket/handler/control.go:34-64 | a request that was checked at one step of a run and is granted at a later one goes to a session that is not eligible if and only if a step between the two disturbed its eligibility and none after that restored it |
| HostControl.DisturbedGrantIsWrong | internal/websocket/handler/control.go:34-64 | every run after which a request would be granted, and every step that disturbs that, make a run in which the grant comes after the step and is wrong |
| HostControl.SpoiledGrant | internal/websocket/handler/control.go:34-64 | such a run for each kind of step: disconnecting, deleting, three profile changes, private mode, locked controls, a restart |
| HostControl.VisitAllIs | internal/session/manager.go:374-389 | the loop clears the host exactly if it is a session that private mode applies to |
| HostControl.RevokingAdminBreaks | internal/session/session.go:44-61 | there is a state and an update after which the host is not eligible |
| HostControl.TakesOverIff | internal/websocket/handler/control.go:47-61 | unless hosting is implicit, a step takes control from one session and gives it to another if and only if it is the late grant of a request by another session |
| HostControl.RacingRequests | internal/websocket/handler/control.go:47-61 | two requests checked while there is no host, and granted one after the other, do that |
| HostControl.KeysAreResetIff | internal/websocket/handler/session.go:45-53 | of any step while there is a host: all keys are released, once, if and only if the host releases control, or is disconnected or deleted, or loses CanConnect or CanLogin but not CanHost |
| HostControl.HostAfter | internal/session/manager.go:201-221 | exactly which steps give control to whom or take it away; every other step leaves the host as it is |
| ManagerEffects.CallOrders | internal/session/session.go:44-61 | exactly what each call has others do, in order: a profile update destroys the WebRTC peer of a watcher who loses canConnect, canLogin or canWatch, and last pauses or unpauses the peer by the new profile |
| ManagerEffects.SettingsPauseEverybodyOnce | internal/session/manager.go:374-389 | if private mode changes, exactly one order per session with a WebRTC peer: to pause it if the mode is on and the session is no admin, to unpause it otherwise; if it does not, none |
| ManagerEffects.PausesAreRight | internal/session/manager.go:367-389 | in any run the last order about the WebRTC peer that a session has is what the settings and the profile of that moment call for |
| ManagerEffects.SessionsAfter | internal/session/manager.go:79-157 | after any step but a restart a session has the token it was created with, the profile of its last update, and the connection and WebRTC peer that the step gives it, takes from it, or leaves it |
| ManagerEffects.FiledAfter | internal/session/manager.go:79-157 | a session is there exactly if it was and is not deleted, or is created and neither its id nor its token was taken |
| TokenIndex.IndexesAgree | internal/session/manager.go:79-157 | after every run tokens and sessions are inverse to each other, and the file holds the sessions |
| TokenIndex.LookupIsRight | internal/session/manager.go:167-182 | a token finds the session that holds it and no other, and the API session exactly if none holds it and it is the API token |
| TokenIndex.LoadUndoesSave | internal/session/serialize.go:11-97 | loading what was saved, in any order, rebuilds ids, tokens and profiles |
| TokenIndex.RestartRestores | internal/session/serialize.go:11-97 | wherever a run is cut off, with a file configured, a restart has the same ids, tokens and profiles, and nobody connected |
| Sessions.Session.ConnectWebSocketPeer | internal/session/session.go:89-114 | the session changes as ReconnectSpec.Connect says |
| Sessions.Session.DisconnectWebSocketPeer | internal/session/session.go:124-176 | the session and its timers change as ReconnectSpec.Disconnect says; a disconnect is announced exactly if it is immediate and of the current peer |
| Sessions.Session.DestroyWebSocketPeer | internal/session/session.go:182-196 | the session changes as ReconnectSpec.Destroy says |
| Sessions.Session.TimerCallsBack | internal/session/session.go:141-143 | the same for a timer's function |
| Sessions.Session.SetWebRTCPeer | internal/session/session.go:218-226 | the session changes as ReconnectSpec.SetWebRTCPeer says |
| Sessions.Session.SetWebRTCConnected | internal/session/session.go:236-275 | calls for a peer that is not current change nothing; a disconnect drops the peer |
| Sessions.SessionManager.Create | internal/session/manager.go:79-112 | both indexes gain the session and the file is written, or an existing id or token is refused and nothing changes |
| Sessions.SessionManager.Update | internal/session/manager.go:114-131 | profile, file, host and connection change, and WebRTC peers are destroyed and paused, as ManagerSpec.Update says |
| Sessions.SessionManager.Delete | internal/session/manager.go:133-157 | both indexes lose the session, its connection ends, its hold on control too, a WebRTC peer that is watching is destroyed, and the file is written |
| Sessions.SessionManager.GetByToken | internal/session/manager.go:167-182 | the lookup returns the object that ManagerSpec.GetByToken names |
| Sessions.SessionManager.GetHost | internal/session/manager.go:210-217 | the host's object if one is set and exists |
| Sessions.SessionManager.ControlRequest | internal/websocket/handler/control.go:34-64 | host and answer are those of ManagerSpec.ControlRequest |
| Sessions.SessionManager.ControlRelease | internal/websocket/handler/control.go:19-32 | host, keyboard reset and answer are those of ManagerSpec.ControlRelease |
| Sessions.SessionManager.ProfileChanged | internal/session/session.go:44-61 | host and connection change, and the WebRTC peer is destroyed if it watches without the right to, and paused or unpaused, as ManagerSpec.ProfileChanged says |
| Sessions.SessionManager.Disconnect | internal/websocket/handler/session.go:45-53 | the session changes as ReconnectSpec.Disconnect says, and if that disconnects a host, the keys are released and it gives up control |
| Sessions.SessionManager.SetWebRTCPeer | internal/session/session.go:218-226 | session and manager change as ReconnectSpec.SetWebRTCPeer and ManagerSpec.SetPeer say |
| Sessions.SessionManager.SetWebRTCConnected | internal/session/session.go:236-275 | session and manager change as ReconnectSpec.SetWebRTCConnected and ManagerSpec.PeerState say |
| Sessions.SessionManager.UpdateSettings | internal/session/manager.go:367-401 | settings and host change, and WebRTC peers are paused and unpaused, as ManagerSpec.UpdateSettings says for the order in which the sessions were visited |
| Sessions.SessionManager.Save | internal/session/serialize.go:11-40 | the loop writes one record per session |
| Sessions.SessionManager.Load | internal/session/serialize.go:42-97 | the loop fills both indexes from the records |
| DependencyGraph.FindIsReach | internal/plugins/dependency.go:18-35 | the depth-first search finds a name only if a reachable node has it, misses it only if none has, and panics only if a reachable node is a placeholder |
| DependencyGraph.FindIsFirst | internal/plugins/dependency.go:18-35 | what it returns is decided by the first node on its way that is a placeholder or has the name: a panic, or that node |
| DependencyGraph.VisitIsReach | internal/plugins/dependency.go:18-35 | that way leads through exactly the reachable nodes |
| DependencyGraph.EdgeKeepsRanked | internal/plugins/dependency.go:64-101 | an edge to a node from which its origin cannot be reached keeps the graph free of cycles |
| PluginRegistry.RoundKeeps | internal/plugins/dependency.go:82-97 | one round keeps the graph free of cycles whatever its outcome; added means that the edge closes no cycle, rejected, in a registry without earlier rejections, that it would, and a panic that the dependency leads to a placeholder |
| PluginRegistry.AdditionKeepsAcyclic | internal/plugins/dependency.go:64-101 | so does a whole addition, accepted, duplicate, rejected or panicking |
| PluginRegistry.RejectedIffCycle | internal/plugins/dependency.go:64-101 | before the first rejection an addition that does not panic is rejected if and only if one of its dependencies would close a cycle in the registry as it was before |
| PluginRegistry.AddedIff | internal/plugins/dependency.go:64-101 | before the first rejection a new plugin is added if and only if none of its dependencies would close a cycle and none that is filled leads to a placeholder other than the plugin's own; it is rejected only for the one and panics only for the other |
| PluginRegistry.PlaceholderPanics | internal/plugins/dependency.go:23 | a registry and an addition that panics |
| PluginRegistry.HistoryHasNoCycle | internal/plugins/dependency.go:64-101 | after any sequence of additions no path of pointers comes back to where it began |
| PluginNames.AdditionRecords | internal/plugins/dependency.go:64-101 | after an addition that goes through, the node of the plugin holds it and points, in order, to exactly the nodes filed under the names it depends on; all other old nodes keep plugin and pointers, new ones are empty placeholders, and exactly these names are filed besides |
| PluginNames.RejectionLeaves | internal/plugins/dependency.go:88-94 | a rejection comes at the first dependency that closes a cycle; the node that closed it has lost its pointers, the plugin is not filed any more but its node keeps the pointers made so far, and all else stays |
| PluginNames.HistoryRecords | internal/plugins/dependency.go:64-101 | until something is rejected, a node is filed for exactly the names that are mentioned, it has a plugin exactly if the name is declared, and points to the nodes of the declared names in their order |
| PluginNames.NextAddition | internal/plugins/dependency.go:64-101 | then the next addition is a duplicate exactly if its name is declared; otherwise it goes through if and only if the declared names with its own close no cycle at it and no dependency leads to a name that is not declared |
| PluginNames.StopsAtFirst | internal/plugins/dependency.go:82-97 | an addition that does not go through stops at the first dependency of which one of the two is true, and for that reason |
| PluginNames.HistoryStarts | internal/plugins/dependency.go:113-120 | if a start after such a history succeeds, every name that is mentioned is declared, all these plugins have been started, and each after every plugin that it names |
| PluginStart.StartIsTopological | internal/plugins/dependency.go:37-57 | for every order of visits each node is started at most once, after everything it reaches, and only if it holds a plugin that starts; on success the started are exactly the reachable ones, otherwise the started are closed under dependencies |
| PluginStart.StartSucceedsIff | internal/plugins/dependency.go:113-120 | the start succeeds if and only if every reachable node holds a plugin that starts |
| PluginStart.StartFailsAtFirst | internal/plugins/dependency.go:37-57 | how it ends is decided by the first node, in the order in which the walk leaves them, that does not: a panic if it is a placeholder, else a failure |
| Plugins.Dependencies.FindFrom | internal/plugins/dependency.go:18-35 | the recursive search over the objects terminates and gives the answer of the search on values |
| Plugins.Dependencies.FindPlugin | internal/plugins/dependency.go:103-111 | the answer is that of the search below some filed plugin, and nothing is found only if none of these searches finds or panics |
| Plugins.Dependencies.AddPlugin | internal/plugins/dependency.go:64-101 | the objects change round by round as PluginRegistry says, and stay free of cycles; if the plugin is added, its node holds it and points in order to the nodes of its dependencies, and the other nodes keep theirs |
| Plugins.Dependencies.StartPlugin | internal/plugins/dependency.go:37-57 | the recursion terminates and enters and starts what PluginStart.StartNode says |
| Plugins.Dependencies.Start | internal/plugins/dependency.go:113-120 | the loop starts what PluginStart.StartAll says for the order in which the map was visited |
| Trend.TauReverse | pkg/utils/trenddetector.go:134-153 | tau of a reversed window is its negative |
| Trend.TauBounds | pkg/utils/trenddetector.go:134-153 | tau lies between -1 and 1, and is 1 exactly for non-constant windows that never fall |
| Trend.WindowRefinesHistory | pkg/utils/trenddetector.go:60-88 | the window is always the newest part of everything seeded and added, repeats collapsed if that is on, and the direction is that of the window once it was computed on it |
| Trend.DirectionFollowsWindowIff | pkg/utils/trenddetector.go:114-130 | exactly when the direction is that of the current window |
| Trend.DirectionIff | pkg/utils/trenddetector.go:114-130 | after any calls, once something was added and the window is full: the direction is upward if and only if more pairs of positions ascend than descend, downward if and only if they do not and ascending less descending pairs are below the threshold times their sum (without any, if the threshold is positive), and neutral otherwise |
| Trend.SteadyWindows | pkg/utils/trenddetector.go:114-153 | a full window that never falls and is not constant is upward; one that never rises is downward for every threshold above -1 |
| Trend.KendallsTau | pkg/utils/trenddetector.go:134-153 | the nested loops compute the difference of ascending and descending pairs over all pairs |
| Trend.TrendDetector.Seed | pkg/utils/trenddetector.go:60-66 | the object changes as Trend.Seeded says |
| Trend.TrendDetector.AddValue | pkg/utils/trenddetector.go:68-88 | the object changes as Trend.Added says |
| Estimator.NoFlapping | internal/webrtc/peer.go:145-311 | under a clock that does not run back, any two switch attempts are apart by the time configured for their kinds |
| Estimator.FewAttemptsInWindow | internal/webrtc/peer.go:145-311 | a window of length L holds at most L divided by the least of these, less the tick's own duration, plus one attempts |
| Estimator.CongestionIsAnswered | internal/webrtc/peer.go:210-261 | if all ticks from one to another are congested for at least UnstableDuration and the last leaves no room, a downgrade has been attempted by then or one is still backed off from |
| Estimator.RoomIsUsed | internal/webrtc/peer.go:263-311 | if all are stable for at least StableDuration and the last has room, an upgrade has been attempted or is still backed off from |
| Estimator.StallHasWaitedIff | internal/webrtc/peer.go:197-204 | a downgrade without a downward trend has been preceded by more than StalledDuration without room, since the last tick that found room or a trend, if and only if there was such a tick |
| Estimator.FirstTickDowngradesIff | internal/webrtc/peer.go:145-261 | exactly when the very first tick attempts a downgrade |
| Estimator.FirstDowngradeIsImmediate | internal/webrtc/peer.go:145-261 | in particular it does if it decides, leaves no room, and no configured duration is the longest there is |
| Estimator.AttemptsAreRight | internal/webrtc/peer.go:145-311 | whatever the clocks read, a tick downgrades if and only if it has a downward trend or a stall, leaves no room, and DowngradeBackoff has passed since the last downgrade and UnstableDuration since the last stable tick; it upgrades if and only if it has neither, has room, and UpgradeBackoff has passed since the last upgrade and StableDuration since the last congested tick or the start |
| Estimator.EightEstimates | internal/webrtc/manager.go:350-358 | of eight distinct estimates the trend is upward if and only if at least 15 of the 28 pairs ascend, downward if and only if at least 22 descend, and neutral while there are fewer than eight |
| Estimator.FallingIsAnswered | internal/webrtc/peer.go:210-261 | the eighth of eight falling estimates is answered by a downgrade if it leaves no room and every wait has elapsed |
| Estimator.EstimatorReader | internal/webrtc/peer.go:125-312 | the loop makes the attempts of the step function tick by tick, until the connection is closed; and each of them exactly when it is due by ticks, trend and clocks |
| KeySpec.ReleaseMatchesPress | pkg/xorg/xorg.go:117-196 | after any run of presses, releases, resets and time-outs under any keymaps, presses and releases of each keysym alternate, a release carries its press's keycode unless that was null, and the list has exactly one entry per held keysym |
| KeySpec.ReleaseMatchesIff | pkg/xorg/xorg.c:207-230 | a release carries the keycode of its press if and only if that was not null or the keymap still has none |
| KeySpec.ResetReleasesAll | pkg/xorg/xorg.go:159-172 | after a reset nothing is held, listed or pressed |
| KeySpec.NullPressCanMismatch | pkg/xorg/xorg.c:207-230 | a press under the null keycode followed by a release under another |
| KeyHistory.KeysFollowHistory | pkg/xorg/xorg.c:207-230 | after any run exactly the keys are held that the calls alone say, since when they say, and the display has seen exactly the events they tell: a press under an existing keycode if there is one, else under a new one, a release under the keycode of its press |
| KeyHistory.AnswersFollowHistory | pkg/xorg/xorg.go:117-157 | a press is refused exactly if the key is held by the history, a release exactly if it is not |
| Keyboard.KeyList.Add | pkg/xorg/xorg.c:75-84 | the new node comes first and the others follow as they were |
| Keyboard.KeyList.Get | pkg/xorg/xorg.c:87-111 | the first entry of the keysym is spliced out and its keycode returned, or nothing changes and it is zero |
| Keyboard.Keyboard.XKey | pkg/xorg/xorg.c:207-230 | list and emitted events change as KeySpec.XKey says |
| Keyboard.Keyboard.KeyDown | pkg/xorg/xorg.go:117-129 | map, list and events change as KeySpec.KeyDown says |
| Keyboard.Keyboard.KeyUp | pkg/xorg/xorg.go:145-157 | map, list and events change as KeySpec.KeyUp says |
| Keyboard.Keyboard.ResetKeys | pkg/xorg/xorg.go:159-172 | every held key is released once, in the order of the map |
| Keyboard.Keyboard.CheckKeys | pkg/xorg/xorg.go:174-196 | exactly the keys held for the duration are released, each once |
| TouchSpec.UnpackPackIff | pkg/xinput/types.go:25-50 | a message survives packing if and only if its type is below 2^8 and its id below 2^16; coordinates always do |
| TouchSpec.PackUnpack | pkg/xinput/types.go:25-50 | every buffer of twelve bytes is the packed form of what it unpacks to |
| TouchSpec.TouchesAreWellFormed | pkg/xinput/xinput.go:40-122 | in any run without aliasing, each id's messages are Begin, Updates, End, over and over, the last one open exactly while the driver holds it open |
| TouchSpec.WellFormedIffNoAlias | pkg/xinput/xinput.go:61-80 | the messages are well formed for all ids if and only if no touch began that the wire cannot tell from an open one |
| TouchSpec.SmallIdsAreWellFormed | pkg/xinput/xinput.go:40-122 | with ids below 2^16 they always are |
| TouchHistory.TouchesFollowHistory | pkg/xinput/xinput.go:40-122 | after any run exactly the touches are open that the calls alone say, and the other end has decoded exactly the messages they tell, each accepted call with its position and pressure and each time-out at -1 |
| TouchHistory.AnswersFollowHistory | pkg/xinput/xinput.go:61-122 | a call is refused exactly if it begins a touch that is open by the history, or is about one that is not |
| TouchHistory.Layout | pkg/xinput/types.go:33-50 | where each byte of a message stands |
| Touch.Message.Pack | pkg/xinput/types.go:33-50 | the twelve elements written are the packed message |
| Touch.Message.Unpack | pkg/xinput/types.go:25-31 | the fields become the unpacked buffer |
| Touch.Transfer | pkg/xinput/types.go:25-50 | sent through a buffer and back, a message is unchanged exactly if its type and id fit |
| Touch.Driver.TouchBegin | pkg/xinput/xinput.go:61-80 | map and wire change as TouchSpec.TouchBegin says |
| Touch.Driver.TouchUpdate | pkg/xinput/xinput.go:82-101 | map and wire change as TouchSpec.TouchUpdate says |
| Touch.Driver.TouchEnd | pkg/xinput/xinput.go:103-122 | map and wire change as TouchSpec.TouchEnd says |
| Touch.Driver.Debounce | pkg/xinput/xinput.go:40-59 | exactly the touches not updated for the duration are ended, each once |

## Left out

- Interleavings finer than one mutex-guarded method, outside `LockOrder` and beyond what `PrivateMode` and `HostControl` take apart: recreatePipelines asks whether a stream has listeners and then creates its pipeline, and DisconnectWebSocketPeer and SetWebRTCConnected update their state outside the lock (internal/session/session.go:164-167, internal/session/session.go:236-275), so that a session can be marked watching when its WebRTC peer has just gone.
- In the runs of `HostControl`, settings changes, profile updates, deletions, disconnects and releases are one step each, although the check of the host and its clearing are separate there too; only requests are taken apart.
- GStreamer, X11, Xkb and pion: their calls are inputs, and that a running encoder answers a keyframe request is assumed where a keyframe is said to be due.
- Shutdown of sinks and managers, wait groups, and back-pressure in a track's sample channel.
- HTTP, cookies, configuration, logging, metrics, broadcasting of events, and JSON: of the sessions file the records are kept. A failed write of the file, and a file edited by hand, are not modelled.
- REST control (take, give, request) and the API session as a caller: they can give control to a session that is not connected or not eligible.
- Control requests checked for sessions that are not connected, in the runs of `HostControl`: `RequestKeepsIff` says what one would do.
- What a WebRTC or WebSocket peer does when it is destroyed, and messages to clients; that a replaced WebRTC peer is destroyed (internal/session/session.go:223-225).
- In `PrivateMode`, sessions that have been deleted: their WebRTC peers are not claimed to be paused.
- BitrateRing.RateIsRightIff: seconds whose samples are all empty, which the ring cannot tell from idle ones in the bucket after next.
- Mouse buttons: their debounce map works like that of the keys without the list.
- A failed malloc in the keycode list (pkg/xorg/xorg.c:76-78).
- Write errors on the touch socket: the driver's map changes as if the write had worked, and so does the model's wire.
- StreamSelector.StreamSelector.LowerBitrate: only that it is the first fit from its end of the list, because the list has one order for requests by id and the other for requests by bitrate.
- StreamSelector.StreamSelector.HigherBitrate: the same from the other end.
- StreamSelector.SortDiffs: an insertion sort for the library's sort, which is one for up to twelve elements only; the comparator is not a strict order, so larger inputs are outside what the library promises.
- PluginRegistry.RejectedIffCycle: not after a first rejection, when a rejected plugin can still be pointed to and be found by its name; the same goes for PluginRegistry.AddedIff and PluginNames.NextAddition.
- The state of the plugins after a panic, since the process ends there.
- Broadcast and screencast managers, cursors, the keysym table and id generation: easy or foreign code.
- Rounding: tau, the estimator's ratio and the byte counts are exact here and floating point there.
