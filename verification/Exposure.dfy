/** Exactly when somebody gets to watch whom private mode should keep from it: which steps put a track of
    such a session on a sink, and which of them no call under way will correct. */
module Exposure {
  import opened Options
  import opened SinkSpec
  import opened TrackSpec
  import opened PeerSpec
  import opened PrivateMode

  // ---- which methods make a track stream ------------------------------------------------------

  predicate CanStart<L>(s: Sink<L>, works: bool) {
    Started(s) || s.pipeline || works
  }

  lemma AddsIffCanStart<L>(s: Sink<L>, l: L, works: bool)
    ensures AddListener(s, l, works).1 <==> CanStart(s, works)
    ensures !CanStart(s, works) ==> AddListener(s, l, works).0 == s
  {
  }

  predicate Streams<S>(t: Track<S>) {
    !t.paused && t.stream.Some?
  }

  /** Unpausing the track succeeds: it has nothing to do, or the sink can start. */
  predicate CanUnpause<S, L>(t: Track<S>, sinks: map<S, Sink<L>>, works: bool)
    requires StreamKnown(t, sinks)
  {
    !t.paused || t.stream.None? || CanStart(sinks[t.stream.value], works)
  }

  lemma UnpausesIff<S, L>(t: Track<S>, l: L, sinks: map<S, Sink<L>>, works: bool)
    requires StreamKnown(t, sinks)
    ensures SetTrackPaused(t, l, sinks, false, works).0.stream == t.stream
    ensures SetTrackPaused(t, l, sinks, false, works).0.paused <==> !CanUnpause(t, sinks, works)
    ensures Streams(SetTrackPaused(t, l, sinks, false, works).0)
            || SetTrackPaused(t, l, sinks, false, works).1 == sinks
    ensures SetTrackPaused(t, l, sinks, false, works).1.Keys == sinks.Keys
  {
    hide AddListener, CanStart;
    if t.stream.Some? {
      AddsIffCanStart(sinks[t.stream.value], l, works);
    }
  }

  /** After its first part the video request leaves the video unpaused: it enables it, with nothing else to
      pause it, or does not touch it. */
  predicate VideoUnpaused<S, L>(p: Peer<S>, sinks: map<S, Sink<L>>, req: VideoRequest<S>, works: bool)
    requires StreamKnown(p.video, sinks)
  {
    if req.disabled.Some? && req.disabled.value != p.videoDisabled
    then !req.disabled.value && !p.paused && CanUnpause(p.video, sinks, works)
    else !p.video.paused
  }

  /** And the video has a stream already, or the request names one that can start. */
  predicate VideoJoins<S, L>(p: Peer<S>, sinks: map<S, Sink<L>>, req: VideoRequest<S>, w1: bool, w2: bool)
    requires StreamKnown(p.video, sinks)
             && (req.stream.Some? && req.stream.value.Some? ==> req.stream.value.value in sinks)
  {
    && VideoUnpaused(p, sinks, req, w1)
    && (p.video.stream.Some?
        || (req.stream.Some? && req.stream.value.Some? && CanStart(sinks[req.stream.value.value], w2)))
  }

  lemma DisablingIs<S, L>(p: Peer<S>, vl: L, sinks: map<S, Sink<L>>, req: VideoRequest<S>, works: bool)
    requires StreamKnown(p.video, sinks) && req.disabled.Some?
    ensures var (p', sinks') := SetVideoDisabled(p, vl, sinks, req.disabled.value, works);
            && p'.audio == p.audio && p'.video.stream == p.video.stream
            && (p'.video.paused <==> !VideoUnpaused(p, sinks, req, works))
            && (p.video.stream.None? ==> sinks' == sinks) && sinks'.Keys == sinks.Keys
  {
    hide AddListener, RemoveListener, CanStart;
    if !req.disabled.value && !p.paused {
      UnpausesIff(p.video, vl, sinks, works);
    }
  }

  lemma SwitchStreamsIff<S, L>(p: Peer<S>, vl: L, sinks: map<S, Sink<L>>, req: VideoRequest<S>, canAuto: bool,
                               works: bool, modified: bool)
    requires StreamKnown(p.video, sinks)
             && (req.stream.Some? && req.stream.value.Some? ==> req.stream.value.value in sinks)
    ensures SwitchVideo(p, vl, sinks, req, canAuto, works, modified).0.audio == p.audio
    ensures Streams(SwitchVideo(p, vl, sinks, req, canAuto, works, modified).0.video)
            <==> !p.video.paused && (p.video.stream.Some?
                 || (req.stream.Some? && req.stream.value.Some? && CanStart(sinks[req.stream.value.value], works)))
  {
    hide AddListener, MoveListener, CanStart;
    if req.stream.Some? && req.stream.value.Some? {
      AddsIffCanStart(sinks[req.stream.value.value], vl, works);
    }
  }

  lemma VideoJoinsIff<S, L>(p: Peer<S>, vl: L, sinks: map<S, Sink<L>>, req: VideoRequest<S>, canAuto: bool, w1: bool,
                            w2: bool)
    requires StreamKnown(p.video, sinks)
             && (req.stream.Some? && req.stream.value.Some? ==> req.stream.value.value in sinks)
    ensures Streams(SetVideo(p, vl, sinks, req, canAuto, w1, w2).0.video) <==> VideoJoins(p, sinks, req, w1, w2)
    ensures SetVideo(p, vl, sinks, req, canAuto, w1, w2).0.audio == p.audio
  {
    hide SwitchVideo, SetVideoDisabled, CanStart, Streams;
    if req.disabled.None? {
      SwitchStreamsIff(p, vl, sinks, req, canAuto, w2, false);
    } else {
      DisablingIs(p, vl, sinks, req, w1);
      var (p1, sinks1) := SetVideoDisabled(p, vl, sinks, req.disabled.value, w1);
      SwitchStreamsIff(p1, vl, sinks1, req, canAuto, w2, p.videoDisabled != req.disabled.value);
    }
  }

  /** The audio request turns the audio on, with nothing else to pause it and a sink that can start, or does
      not touch audio that streams. */
  predicate AudioJoins<S, L>(p: Peer<S>, sinks: map<S, Sink<L>>, disabled: Option<bool>, works: bool)
    requires StreamKnown(p.audio, sinks)
  {
    if disabled.Some? && disabled.value != p.audioDisabled
    then !disabled.value && !p.paused && p.audio.stream.Some? && CanUnpause(p.audio, sinks, works)
    else Streams(p.audio)
  }

  lemma AudioJoinsIff<S, L>(p: Peer<S>, al: L, sinks: map<S, Sink<L>>, disabled: Option<bool>, works: bool)
    requires StreamKnown(p.audio, sinks)
    ensures Streams(SetAudio(p, al, sinks, disabled, works).0.audio) <==> AudioJoins(p, sinks, disabled, works)
    ensures SetAudio(p, al, sinks, disabled, works).0.video == p.video
  {
    hide AddListener, RemoveListener, CanStart;
    UnpausesIff(p.audio, al, sinks, works);
  }

  predicate PeerStreams<S>(p: Peer<S>) {
    Streams(p.video) || Streams(p.audio)
  }

  /** SetPaused takes away the last reason to pause a track that has a stream, and its sink can start. */
  predicate PauseJoins<S, L>(p: Peer<S>, sinks: map<S, Sink<L>>, paused: bool, vWorks: bool, aWorks: bool)
    requires StreamsKnown(p, sinks)
  {
    && !paused
    && ((!p.videoDisabled && p.video.stream.Some? && CanUnpause(p.video, sinks, vWorks))
        || (!p.audioDisabled && p.audio.stream.Some? && CanUnpause(p.audio, sinks, aWorks)))
  }

  lemma PausedTrack<S, L>(t: Track<S>, l: L, sinks: map<S, Sink<L>>, works: bool)
    requires StreamKnown(t, sinks)
    ensures !Streams(SetTrackPaused(t, l, sinks, true, works).0)
    ensures t.paused ==> SetTrackPaused(t, l, sinks, true, works).1 == sinks
    ensures SetTrackPaused(t, l, sinks, true, works).1.Keys == sinks.Keys
  {
  }

  lemma PauseJoinsIff<S, L>(p: Peer<S>, vl: L, al: L, sinks: map<S, Sink<L>>, paused: bool, vWorks: bool, aWorks: bool)
    requires StreamsKnown(p, sinks) && FlagsRule(p)
    ensures PeerStreams(SetPaused(p, vl, al, sinks, paused, vWorks, aWorks).0)
            <==> PauseJoins(p, sinks, paused, vWorks, aWorks)
  {
    hide SetTrackPaused, CanUnpause;
    var (v, sinks1) := SetTrackPaused(p.video, vl, sinks, paused || p.videoDisabled, vWorks);
    PausedTrack(p.video, vl, sinks, vWorks);
    UnpausesIff(p.video, vl, sinks, vWorks);
    PausedTrack(p.audio, al, sinks1, aWorks);
    UnpausesIff(p.audio, al, sinks1, aWorks);
  }

  // ---- in a room ------------------------------------------------------------------------------

  /** A session watches exactly if its current peer streams. */
  lemma WatchesIffStreams(r: Room, s: SessionId, p: PeerId)
    requires MediaOk(r) && s in r.sessions && r.sessions[s].peer == Some(p)
    ensures p in r.peers && (Watches(r, s) <==> PeerStreams(r.peers[p]))
  {
    hide AllSinksOk, KnownFiled, JobsOk;
    var peer := r.peers[p];
    assert PeerOk(peer, VideoOf(p), AudioOf(p), r.sinks);
    if Streams(peer.video) { assert VideoOf(p) in Members(r.sinks[peer.video.stream.value]); }
    if Streams(peer.audio) { assert AudioOf(p) in Members(r.sinks[peer.audio.stream.value]); }
  }

  lemma PeerIsOk(r: Room, p: PeerId)
    requires MediaOk(r) && p in r.peers
    ensures StreamsKnown(r.peers[p], r.sinks) && FlagsRule(r.peers[p])
  {
    assert PeerOk(r.peers[p], VideoOf(p), AudioOf(p), r.sinks);
  }

  ghost predicate InOrder(r: Room, p: PeerId) {
    p in r.peers && StreamsKnown(r.peers[p], r.sinks)
  }

  /** The step makes peer p stream, given that it did not before. */
  ghost predicate Joins(r: Room, e: Event, p: PeerId) {
    && Allowed(r, e) && InOrder(r, p)
    && match e
       case SetPeerVideo(q, req, _, w1, w2) => q == p && VideoJoins(r.peers[p], r.sinks, req, w1, w2)
       case SetPeerAudio(q, disabled, works) => q == p && AudioJoins(r.peers[p], r.sinks, disabled, works)
       case Proceed(j, _, works) =>
         && r.jobs[j].Pausing? && r.jobs[j].peer == p
         && PauseJoins(r.peers[p], r.sinks, r.jobs[j].enabled, VideoOf(p) in works, AudioOf(p) in works)
       case _ => false
  }

  /** Steps that have nothing to do with the flags and streams of p. */
  ghost predicate Concerns(r: Room, e: Event, p: PeerId)
    requires Allowed(r, e)
  {
    match e
    case SetPeerVideo(q, _, _, _, _) => q == p
    case SetPeerAudio(q, _, _) => q == p
    case Proceed(j, _, _) => r.jobs[j].Pausing? && r.jobs[j].peer == p
    case ShutdownTrack(t) => t.peer == p
    case _ => false
  }

  lemma OthersStay(r: Room, e: Event, p: PeerId)
    requires MediaOk(r) && Allowed(r, e) && p in r.peers && !Concerns(r, e, p)
    ensures p in Step(r, e).peers && Step(r, e).peers[p] == r.peers[p]
  {
    hide MediaOk, SetVideo, SetAudio, RemoveStream, SetPaused;
    if e.Proceed? {
      JobsAreOk(r);
    }
  }

  lemma VideoStepJoinsIff(r: Room, e: Event, p: PeerId)
    requires MediaOk(r) && Allowed(r, e) && e.SetPeerVideo? && e.peer == p && !PeerStreams(r.peers[p])
    ensures p in Step(r, e).peers && (PeerStreams(Step(r, e).peers[p]) <==> Joins(r, e, p))
  {
    hide SetVideo, VideoJoins, Streams, PeersOk, AllSinksOk, KnownFiled, CurrentPeersOk, JobsOk;
    PeerIsOk(r, p);
    VideoJoinsIff(r.peers[p], VideoOf(p), r.sinks, e.request, e.canAuto, e.unpauseWorks, e.switchWorks);
  }

  lemma AudioStepJoinsIff(r: Room, e: Event, p: PeerId)
    requires MediaOk(r) && Allowed(r, e) && e.SetPeerAudio? && e.peer == p && !PeerStreams(r.peers[p])
    ensures p in Step(r, e).peers && (PeerStreams(Step(r, e).peers[p]) <==> Joins(r, e, p))
  {
    hide SetAudio, AudioJoins, Streams, PeersOk, AllSinksOk, KnownFiled, CurrentPeersOk, JobsOk;
    PeerIsOk(r, p);
    AudioJoinsIff(r.peers[p], AudioOf(p), r.sinks, e.disabled, e.audioWorks);
  }

  lemma PauseStepJoinsIff(r: Room, e: Event, p: PeerId)
    requires MediaOk(r) && Allowed(r, e) && e.Proceed? && r.jobs[e.job].Pausing? && r.jobs[e.job].peer == p
    ensures p in Step(r, e).peers && (PeerStreams(Step(r, e).peers[p]) <==> Joins(r, e, p))
  {
    hide SetPaused, PauseJoins, PeerStreams, PeersOk, AllSinksOk, KnownFiled, CurrentPeersOk, NextJob;
    JobsAreOk(r);
    PeerIsOk(r, p);
    PauseJoinsIff(r.peers[p], VideoOf(p), AudioOf(p), r.sinks, r.jobs[e.job].enabled, VideoOf(p) in e.works,
                  AudioOf(p) in e.works);
  }

  lemma ShutdownStreamsLess(r: Room, e: Event)
    requires MediaOk(r) && Allowed(r, e) && e.ShutdownTrack? && !PeerStreams(r.peers[e.track.peer])
    ensures e.track.peer in Step(r, e).peers && !PeerStreams(Step(r, e).peers[e.track.peer])
  {
    hide MediaOk;
    PeerIsOk(r, e.track.peer);
  }

  lemma JoinsIff(r: Room, e: Event, p: PeerId)
    requires MediaOk(r) && Allowed(r, e) && p in r.peers && !PeerStreams(r.peers[p])
    ensures p in Step(r, e).peers && (PeerStreams(Step(r, e).peers[p]) <==> Joins(r, e, p))
  {
    hide MediaOk, Step, PeerStreams, InOrder;
    if !Concerns(r, e, p) {
      OthersStay(r, e, p);
    } else if e.SetPeerVideo? {
      VideoStepJoinsIff(r, e, p);
    } else if e.SetPeerAudio? {
      AudioStepJoinsIff(r, e, p);
    } else if e.Proceed? {
      PauseStepJoinsIff(r, e, p);
    } else {
      ShutdownStreamsLess(r, e);
    }
  }

  // ---- nobody under private mode watches ------------------------------------------------------

  /** Private mode applies to the session, whose current peer p is. */
  ghost predicate Private(r: Room, s: SessionId, p: PeerId) {
    Current(r, s, p) && PrivateModeEnabled(r, s)
  }

  ghost predicate Hidden(r: Room) {
    forall s, p :: Private(r, s, p) ==> !PeerStreams(r.peers[p])
  }

  /** A filed session without the admin right watches. */
  ghost predicate GuestWatches(r: Room, s: SessionId, p: PeerId) {
    Current(r, s, p) && !r.sessions[s].isAdmin && PeerStreams(r.peers[p])
  }

  /** The step turns private mode on under somebody's eyes, takes the admin right from somebody who watches,
      or makes somebody stream to whom private mode applies. */
  ghost predicate Exposes(r: Room, e: Event) {
    match e
    case UpdateSettings(on, _) => on && exists s, p :: GuestWatches(r, s, p)
    case UpdateProfile(s, isAdmin, _, _) =>
      r.privateMode && !isAdmin && exists p :: Current(r, s, p) && PeerStreams(r.peers[p])
    case _ => exists s, p :: Private(r, s, p) && Joins(r, e, p)
  }

  /** Apart from settings and profiles, whoever is under private mode after a step was so before, unless
      the peer is new. */
  lemma PrivateBefore(r: Room, e: Event, s: SessionId, p: PeerId)
    requires MediaOk(r) && Allowed(r, e) && Private(Step(r, e), s, p) && !e.UpdateSettings? && !e.UpdateProfile?
    ensures Private(r, s, p) || (e.CreatePeer? && e.peer == p && !PeerStreams(Step(r, e).peers[p]))
  {
    hide MediaOk, SetVideo, SetAudio, RemoveStream, SetPaused, NextJob;
    CurrentAreKnown(r);
    if e.Proceed? {
      JobsAreOk(r);
    }
  }

  lemma CurrentAreKnown(r: Room)
    requires MediaOk(r)
    ensures forall s :: s in r.sessions && r.sessions[s].peer.Some? ==> r.sessions[s].peer.value in r.peers
  {
  }

  lemma PrivateAfter(r: Room, e: Event, s: SessionId, p: PeerId)
    requires MediaOk(r) && Allowed(r, e) && Private(r, s, p) && (e.SetPeerVideo? || e.SetPeerAudio? || e.Proceed?)
    ensures Private(Step(r, e), s, p)
  {
    hide MediaOk, SetVideo, SetAudio, RemoveStream, SetPaused, NextJob;
    if e.Proceed? {
      JobsAreOk(r);
    }
  }

  lemma SettingsHideIff(r: Room, e: Event)
    requires MediaOk(r) && Allowed(r, e) && Hidden(r) && e.UpdateSettings?
    ensures Hidden(Step(r, e)) <==> !Exposes(r, e)
  {
    hide MediaOk, PeerStreams;
    var r' := Step(r, e);
    assert forall s, p :: Current(r', s, p) <==> Current(r, s, p);
    if s, p :| GuestWatches(r, s, p) && e.privateMode {
      assert Private(r', s, p);
    }
    forall s, p | Private(r', s, p) && PeerStreams(r'.peers[p]) ensures GuestWatches(r, s, p) {
    }
  }

  lemma ProfileHidesIff(r: Room, e: Event)
    requires MediaOk(r) && Allowed(r, e) && Hidden(r) && e.UpdateProfile?
    ensures Hidden(Step(r, e)) <==> !Exposes(r, e)
  {
    hide MediaOk, PeerStreams;
    var r' := Step(r, e);
    assert forall s, p :: Current(r', s, p) <==> Current(r, s, p);
    if p :| Current(r, e.session, p) && PeerStreams(r.peers[p]) && r.privateMode && !e.isAdmin {
      assert Private(r', e.session, p);
    }
    forall s, p | Private(r', s, p) && s != e.session ensures !PeerStreams(r'.peers[p]) {
      assert Private(r, s, p);
    }
  }

  lemma OtherStepHidesIff(r: Room, e: Event)
    requires MediaOk(r) && Allowed(r, e) && Hidden(r) && !e.UpdateSettings? && !e.UpdateProfile?
    ensures Hidden(Step(r, e)) <==> !Exposes(r, e)
  {
    hide MediaOk, PeerStreams, Step, Joins, Private, Allowed;
    var r' := Step(r, e);
    PrivateIsCurrent(r);
    PrivateIsCurrent(r');
    if s, p :| Private(r, s, p) && Joins(r, e, p) {
      JoinsIff(r, e, p);
      JoinIsRequest(r, e, p);
      PrivateAfter(r, e, s, p);
    }
    forall s, p | Private(r', s, p) && PeerStreams(r'.peers[p]) ensures Private(r, s, p) && Joins(r, e, p) {
      PrivateBefore(r, e, s, p);
      JoinsIff(r, e, p);
    }
  }

  lemma PrivateIsCurrent(r: Room)
    ensures forall s, p :: Private(r, s, p) ==> p in r.peers && s in r.sessions
  {
  }

  lemma JoinIsRequest(r: Room, e: Event, p: PeerId)
    requires Joins(r, e, p)
    ensures e.SetPeerVideo? || e.SetPeerAudio? || e.Proceed?
  {
  }

  /** Of any step from a room in which nobody under private mode watches: afterwards nobody does if and only
      if the step does not expose anybody. */
  lemma StepHidesIff(r: Room, e: Event)
    requires MediaOk(r) && Allowed(r, e) && Hidden(r)
    ensures Hidden(Step(r, e)) <==> !Exposes(r, e)
  {
    hide *;
    if e.UpdateSettings? {
      SettingsHideIff(r, e);
    } else if e.UpdateProfile? {
      ProfileHidesIff(r, e);
    } else {
      OtherStepHidesIff(r, e);
    }
  }

  /** Throughout a run nobody under private mode watches, if and only if no step of it exposes anybody. */
  lemma {:induction false} HiddenIff(states: seq<Room>, events: seq<Event>, n: nat)
    requires IsRun(states, events) && n < |states|
    ensures (forall i :: 0 <= i <= n ==> Hidden(states[i]))
            <==> (forall i :: 0 <= i < n ==> !Exposes(states[i], events[i]))
  {
    hide MediaOk, Allowed, Step, Hidden, Exposes;
    if n > 0 {
      HiddenIff(states, events, n - 1);
      var r, e := states[n - 1], events[n - 1];
      assert Follows(r, e, states[n - 1 + 1]);
      if Hidden(r) {
        StepHidesIff(r, e);
        assert Hidden(states[n]) <==> !Exposes(r, e);
      }
    } else {
      NobodyStreams(states[0]);
    }
  }

  /** Private mode applies to the session, which is filed. */
  ghost predicate Applies(r: Room, s: SessionId) {
    s in r.sessions && r.sessions[s].filed && PrivateModeEnabled(r, s)
  }

  /** The current peer of such a session exists, and registration at a sink is the same as a peer that
      streams. */
  ghost predicate PeerTells(r: Room, s: SessionId)
    requires Applies(r, s)
  {
    var peer := r.sessions[s].peer;
    && (forall p :: Private(r, s, p) <==> peer.Some? && peer.value == p)
    && (peer.Some? ==> peer.value in r.peers)
    && (Watches(r, s) <==> peer.Some? && PeerStreams(r.peers[peer.value]))
  }

  lemma PeersTell(r: Room, s: SessionId)
    requires MediaOk(r) && Applies(r, s)
    ensures PeerTells(r, s)
  {
    hide MediaOk, Watches, PeerStreams;
    CurrentAreKnown(r);
    if r.sessions[s].peer.Some? {
      WatchesIffStreams(r, s, r.sessions[s].peer.value);
    } else {
      NoPeerNoWatch(r, s);
    }
  }

  lemma NoPeerNoWatch(r: Room, s: SessionId)
    requires s in r.sessions && r.sessions[s].peer.None?
    ensures !Watches(r, s)
  {
  }

  ghost predicate NobodyWatches(r: Room) {
    forall s :: Applies(r, s) ==> !Watches(r, s)
  }

  lemma HiddenIsUnregistered(r: Room)
    requires MediaOk(r)
    ensures Hidden(r) <==> NobodyWatches(r)
  {
    hide MediaOk, Watches, PeerStreams;
    forall s | Applies(r, s) ensures PeerTells(r, s) {
      PeersTell(r, s);
    }
    assert forall s, p :: Private(r, s, p) ==> Applies(r, s);
    forall s | Hidden(r) && Applies(r, s) ensures !Watches(r, s) {
      assert r.sessions[s].peer.Some? ==> Private(r, s, r.sessions[s].peer.value);
    }
  }

  /** Throughout a run no session that private mode applies to has a track registered at any sink, if and
      only if no step of the run exposes anybody. */
  lemma PrivacyIff(states: seq<Room>, events: seq<Event>, n: nat)
    requires IsRun(states, events) && n < |states|
    ensures (forall i :: 0 <= i <= n ==> NobodyWatches(states[i]))
            <==> (forall i :: 0 <= i < n ==> !Exposes(states[i], events[i]))
  {
    hide IsRun, MediaOk, Hidden, NobodyWatches, Exposes;
    forall i | 0 <= i <= n ensures Hidden(states[i]) <==> NobodyWatches(states[i]) {
      ReachableOk(states, events, i);
      HiddenIsUnregistered(states[i]);
    }
    HiddenIff(states, events, n);
  }

  lemma NobodyStreams(r: Room)
    requires Initial(r)
    ensures Hidden(r) && Guarded(r)
  {
  }

  // ---- whoever watches is seen to -------------------------------------------------------------

  /** Whoever watches under private mode is about to be stopped by a call under way. */
  ghost predicate Guarded(r: Room) {
    forall s, p :: Private(r, s, p) && PeerStreams(r.peers[p]) ==> DueIn(r.jobs, s, p, true)
  }

  /** The calls under way after the step, if it is one that can make a peer stream. */
  ghost function CallsAfter(r: Room, e: Event): map<JobId, Job> {
    if e.Proceed? && e.job in r.jobs && r.jobs[e.job].Pausing?
    then r.jobs[e.job := Visiting(r.jobs[e.job].rest)]
    else r.jobs
  }

  /** A connection request fails whose peer streams although private mode applies, and no other call that is
      under way will stop that. */
  ghost predicate LetsGo(r: Room, e: Event) {
    && e.RequestFails? && e.job in r.jobs && r.jobs[e.job].Requesting?
    && var s, p := r.jobs[e.job].s, r.jobs[e.job].peer;
       Private(r, s, p) && PeerStreams(r.peers[p]) && !DueIn(r.jobs - {e.job}, s, p, true)
  }

  /** The step makes somebody stream to whom private mode applies, and no call under way will stop that, or
      it drops the only such call. */
  ghost predicate Slips(r: Room, e: Event) {
    || LetsGo(r, e)
    || exists s, p :: Private(r, s, p) && Joins(r, e, p) && !DueIn(CallsAfter(r, e), s, p, true)
  }

  lemma JoinCalls(r: Room, e: Event, p: PeerId)
    requires MediaOk(r) && Allowed(r, e) && (Joins(r, e, p) || e.SetPeerVideo? || e.SetPeerAudio? || e.ShutdownTrack?)
    ensures Step(r, e).jobs == CallsAfter(r, e)
  {
    hide MediaOk, SetVideo, SetAudio, RemoveStream, SetPaused;
    if e.Proceed? {
      JobsAreOk(r);
    }
  }

  /** A call that will stop somebody from watching under private mode still will after a step, or has just
      done so. */
  lemma DueAfter(r: Room, e: Event, s: SessionId, p: PeerId)
    requires MediaOk(r) && Allowed(r, e) && Private(r, s, p) && Private(Step(r, e), s, p)
    requires DueIn(r.jobs, s, p, true) && PeerStreams(Step(r, e).peers[p]) && !e.RequestFails?
    ensures DueIn(Step(r, e).jobs, s, p, true)
  {
    hide MediaOk, Due, DueIn, SetVideo, SetAudio, RemoveStream, PausePeer, NextJob, PeerStreams;
    var r' := Step(r, e);
    if e.Proceed? {
      JobsAreOk(r);
      DueAfterProceed(r, e, s, p);
    } else if e.UpdateSettings? || e.UpdateProfile? || e.CreatePeer? {
      DueStays(r.jobs, r'.jobs, s, p, true);
    }
  }

  lemma DueAfterProceed(r: Room, e: Event, s: SessionId, p: PeerId)
    requires MediaOk(r) && Allowed(r, e) && e.Proceed? && Private(r, s, p) && p in Step(r, e).peers
    requires DueIn(r.jobs, s, p, true) && PeerStreams(Step(r, e).peers[p])
    ensures DueIn(Step(r, e).jobs, s, p, true)
  {
    hide MediaOk, Due, DueIn, PausePeer, NextJob, PeerStreams, Joins;
    var job, next := r.jobs[e.job], NextJobOf(r, e);
    NextAfterProceed(r, e);
    if Due(job, s, p, true) {
      if !job.Pausing? {
        NextIsDue(r, e.job, e.order, s, p);
      } else {
        if job.peer == p {
          PauseStepJoinsIff(r, e, p);
          JoinsUnpauses(r, e, p);
        }
        PausingOtherwiseIsDue(job, s, p);
      }
    }
    DueElsewhere(r.jobs, e.job, next, s, p, true);
  }

  lemma JoinsUnpauses(r: Room, e: Event, p: PeerId)
    requires e.Proceed? && Joins(r, e, p)
    ensures e.job in r.jobs && r.jobs[e.job].Pausing? && !r.jobs[e.job].enabled
  {
  }

  lemma PausingOtherwiseIsDue(job: Job, s: SessionId, p: PeerId)
    requires job.Pausing? && Due(job, s, p, true) && (job.peer == p ==> !job.enabled)
    ensures Due(Visiting(job.rest), s, p, true)
  {
  }

  ghost function NextJobOf(r: Room, e: Event): Option<Job>
    requires MediaOk(r) && e.Proceed? && e.job in r.jobs
  {
    NextJob(r, r.jobs[e.job], e.order)
  }

  lemma NextAfterProceed(r: Room, e: Event)
    requires MediaOk(r) && Allowed(r, e) && e.Proceed?
    ensures var next := NextJobOf(r, e);
            && Step(r, e).jobs == (if next.Some? then r.jobs[e.job := next.value] else r.jobs - {e.job})
            && (r.jobs[e.job].Pausing? ==> next == Some(Visiting(r.jobs[e.job].rest)))
  {
    hide MediaOk, SetPaused;
    JobsAreOk(r);
  }

  lemma SettingsGuard(r: Room, e: Event)
    requires MediaOk(r) && Allowed(r, e) && Guarded(r) && (e.UpdateSettings? || e.UpdateProfile?)
    ensures Guarded(Step(r, e)) && !Slips(r, e)
  {
    hide MediaOk, Due, PeerStreams;
    var r' := Step(r, e);
    forall s, p | Private(r', s, p) && PeerStreams(r'.peers[p]) ensures DueIn(r'.jobs, s, p, true) {
      if Private(r, s, p) {
        DueStays(r.jobs, r'.jobs, s, p, true);
      } else if e.UpdateSettings? {
        ListingIsDue(s, p);
        assert r'.jobs[e.job] == Listing;
      } else {
        UpdateIsDue(s, p, true);
        assert r'.jobs[e.job] == Updated(s);
      }
    }
  }

  lemma ListingIsDue(s: SessionId, p: PeerId)
    ensures Due(Listing, s, p, true)
  {
  }

  lemma FailGuardsIff(r: Room, e: Event)
    requires MediaOk(r) && Allowed(r, e) && Guarded(r) && e.RequestFails?
    ensures Guarded(Step(r, e)) <==> !Slips(r, e)
  {
    hide MediaOk, DueIn, PeerStreams;
    var r', t, q := Step(r, e), r.jobs[e.job].s, r.jobs[e.job].peer;
    forall s, p | Private(r, s, p) && PeerStreams(r.peers[p]) && !(s == t && p == q)
      ensures DueIn(r'.jobs, s, p, true)
    {
      DueElsewhere(r.jobs, e.job, None, s, p, true);
    }
    assert forall s, p :: Private(r', s, p) <==> Private(r, s, p);
    assert Slips(r, e) <==> LetsGo(r, e);
  }

  lemma OtherStepGuardsIff(r: Room, e: Event)
    requires MediaOk(r) && Allowed(r, e) && Guarded(r) && !e.UpdateSettings? && !e.UpdateProfile? && !e.RequestFails?
    ensures Guarded(Step(r, e)) <==> !Slips(r, e)
  {
    hide MediaOk, PeerStreams, Step, Joins, Private, Allowed, DueIn, CallsAfter;
    var r' := Step(r, e);
    PrivateIsCurrent(r);
    PrivateIsCurrent(r');
    if s, p :| Private(r, s, p) && Joins(r, e, p) && !DueIn(CallsAfter(r, e), s, p, true) {
      SlipIsSeen(r, e, s, p);
    }
    forall s, p | Private(r', s, p) && PeerStreams(r'.peers[p])
      ensures DueIn(r'.jobs, s, p, true) || (Private(r, s, p) && Joins(r, e, p) && !DueIn(CallsAfter(r, e), s, p, true))
    {
      PrivateBefore(r, e, s, p);
      if PeerStreams(r.peers[p]) {
        DueAfter(r, e, s, p);
      } else {
        JoinsIff(r, e, p);
        JoinCalls(r, e, p);
      }
    }
  }

  lemma SlipIsSeen(r: Room, e: Event, s: SessionId, p: PeerId)
    requires MediaOk(r) && Allowed(r, e) && Guarded(r)
    requires Private(r, s, p) && Joins(r, e, p) && !DueIn(CallsAfter(r, e), s, p, true)
    ensures Private(Step(r, e), s, p) && PeerStreams(Step(r, e).peers[p]) && !DueIn(Step(r, e).jobs, s, p, true)
  {
    hide MediaOk, PeerStreams, Step, Joins, Private, Allowed, DueIn, CallsAfter;
    PrivateIsCurrent(r);
    JoinIsRequest(r, e, p);
    PrivateAfter(r, e, s, p);
    PrivateIsCurrent(Step(r, e));
    JoinCalls(r, e, p);
    JoinStreams(r, e, p);
  }

  /** Also if it did before, the peer streams after such a step. */
  lemma JoinStreams(r: Room, e: Event, p: PeerId)
    requires MediaOk(r) && Allowed(r, e) && p in r.peers && Joins(r, e, p)
    ensures p in Step(r, e).peers && PeerStreams(Step(r, e).peers[p])
  {
    hide MediaOk, Step, InOrder, VideoJoins, AudioJoins, PauseJoins;
    if e.Proceed? {
      PauseStepJoinsIff(r, e, p);
    } else {
      RequestStreams(r, e, p);
    }
  }

  lemma RequestStreams(r: Room, e: Event, p: PeerId)
    requires MediaOk(r) && Allowed(r, e) && Joins(r, e, p) && (e.SetPeerVideo? || e.SetPeerAudio?)
    ensures p in Step(r, e).peers && PeerStreams(Step(r, e).peers[p])
  {
    hide MediaOk, SetVideo, SetAudio, VideoJoins, AudioJoins, Streams;
    if e.SetPeerVideo? {
      VideoJoinsIff(r.peers[p], VideoOf(p), r.sinks, e.request, e.canAuto, e.unpauseWorks, e.switchWorks);
    } else {
      AudioJoinsIff(r.peers[p], AudioOf(p), r.sinks, e.disabled, e.audioWorks);
    }
  }

  lemma StepGuardsIff(r: Room, e: Event)
    requires MediaOk(r) && Allowed(r, e) && Guarded(r)
    ensures Guarded(Step(r, e)) <==> !Slips(r, e)
  {
    hide *;
    if e.UpdateSettings? || e.UpdateProfile? {
      SettingsGuard(r, e);
    } else if e.RequestFails? {
      FailGuardsIff(r, e);
    } else {
      OtherStepGuardsIff(r, e);
    }
  }

  /** Throughout a run whoever watches under private mode is about to be stopped by a call under way, if and
      only if nobody slips through in any step of it. */
  lemma {:induction false} GuardedIff(states: seq<Room>, events: seq<Event>, n: nat)
    requires IsRun(states, events) && n < |states|
    ensures (forall i :: 0 <= i <= n ==> Guarded(states[i]))
            <==> (forall i :: 0 <= i < n ==> !Slips(states[i], events[i]))
  {
    hide MediaOk, Allowed, Step, Guarded, Slips;
    if n > 0 {
      GuardedIff(states, events, n - 1);
      var r, e := states[n - 1], events[n - 1];
      assert Follows(r, e, states[n - 1 + 1]);
      if Guarded(r) {
        StepGuardsIff(r, e);
        assert Guarded(states[n]) <==> !Slips(r, e);
      }
    } else {
      NobodyStreams(states[0]);
    }
  }

  /** Whoever is registered at a sink under private mode is about to be stopped by a call under way. */
  ghost predicate WatchersAreDue(r: Room) {
    forall s :: Applies(r, s) && Watches(r, s) ==> DueIn(r.jobs, s, r.sessions[s].peer.value, true)
  }

  lemma GuardedIsRegistered(r: Room)
    requires MediaOk(r)
    ensures Guarded(r) <==> WatchersAreDue(r)
  {
    hide MediaOk, Watches, PeerStreams, DueIn;
    forall s | Applies(r, s) ensures PeerTells(r, s) {
      PeersTell(r, s);
    }
    assert forall s, p :: Private(r, s, p) ==> Applies(r, s);
  }

  /** Throughout a run every session that has a track registered at a sink although private mode applies to
      it is about to be stopped, if and only if nobody slips through in any step of it. */
  lemma WatchersAreDueIff(states: seq<Room>, events: seq<Event>, n: nat)
    requires IsRun(states, events) && n < |states|
    ensures (forall i :: 0 <= i <= n ==> WatchersAreDue(states[i]))
            <==> (forall i :: 0 <= i < n ==> !Slips(states[i], events[i]))
  {
    hide IsRun, MediaOk, Guarded, WatchersAreDue, Slips;
    forall i | 0 <= i <= n ensures Guarded(states[i]) <==> WatchersAreDue(states[i]) {
      ReachableOk(states, events, i);
      GuardedIsRegistered(states[i]);
    }
    GuardedIff(states, events, n);
  }
}
