/** A WebRTC peer and its two tracks: what SetPaused, SetVideo and SetAudio do, as functions of
    values. */
module PeerSpec {
  import opened Options
  import opened SinkSpec
  import opened TrackSpec

  datatype Peer<+S> = Peer(
    paused: bool,
    videoAuto: bool,
    videoDisabled: bool,
    audioDisabled: bool,
    video: Track<S>,
    audio: Track<S>)

  /** `stream` is what the selector of the request found: absent, present but not found, found. */
  datatype VideoRequest<+S> = VideoRequest(disabled: Option<bool>, stream: Option<Option<S>>, auto: Option<bool>)

  datatype VideoResult = Done(modified: bool) | StreamNotFound | SwitchFailed

  /** Both tracks of a new peer: audio is off, and no video stream is chosen yet. */
  function NewPeer<S>(audio: S): Peer<S> {
    Peer(false, false, false, true, Track(false, None), Track(true, Some(audio)))
  }

  predicate StreamsKnown<S, L>(p: Peer<S>, sinks: map<S, Sink<L>>) {
    StreamKnown(p.video, sinks) && StreamKnown(p.audio, sinks)
  }

  /** `vl` and `al` are the peer's tracks as listeners; the `works` flags say whether the video's and
      the audio's pipeline could be built. */
  function SetPaused<S, L>(p: Peer<S>, vl: L, al: L, sinks: map<S, Sink<L>>, paused: bool, vWorks: bool, aWorks: bool)
    : (Peer<S>, map<S, Sink<L>>)
    requires StreamsKnown(p, sinks)
  {
    var (v, sinks1) := SetTrackPaused(p.video, vl, sinks, paused || p.videoDisabled, vWorks);
    var (a, sinks2) := SetTrackPaused(p.audio, al, sinks1, paused || p.audioDisabled, aWorks);
    (p.(paused := paused, video := v, audio := a), sinks2)
  }

  /** Nothing happens unless the flag changes. */
  function SetVideoDisabled<S, L>(p: Peer<S>, vl: L, sinks: map<S, Sink<L>>, disabled: bool, works: bool)
    : (Peer<S>, map<S, Sink<L>>)
    requires StreamKnown(p.video, sinks)
  {
    if p.videoDisabled == disabled then (p, sinks)
    else
      var (v, sinks') := SetTrackPaused(p.video, vl, sinks, disabled || p.paused, works);
      (p.(videoDisabled := disabled, video := v), sinks')
  }

  function SetAudio<S, L>(p: Peer<S>, al: L, sinks: map<S, Sink<L>>, disabled: Option<bool>, works: bool)
    : (Peer<S>, map<S, Sink<L>>, bool)
    requires StreamKnown(p.audio, sinks)
  {
    if disabled.None? || p.audioDisabled == disabled.value then (p, sinks, false)
    else
      var (a, sinks') := SetTrackPaused(p.audio, al, sinks, disabled.value || p.paused, works);
      (p.(audioDisabled := disabled.value, audio := a), sinks', true)
  }

  /** The part of SetVideo after `disabled`: first the stream, then automatic switching. */
  function SwitchVideo<S(==), L>(p: Peer<S>, vl: L, sinks: map<S, Sink<L>>, r: VideoRequest<S>,
                                 canAuto: bool, works: bool, modified: bool)
    : (Peer<S>, map<S, Sink<L>>, VideoResult)
    requires StreamKnown(p.video, sinks)
    requires r.stream.Some? && r.stream.value.Some? ==> r.stream.value.value in sinks
  {
    if r.stream == Some(None) then (p, sinks, StreamNotFound)
    else
      var (v, sinks', switched) := if r.stream.Some?
                                   then SetStream(p.video, vl, sinks, r.stream.value.value, works)
                                   else (p.video, sinks, Unchanged);
      if switched.Failed? then (p.(video := v), sinks', SwitchFailed)
      else
        var auto := if r.auto.Some? then r.auto.value && canAuto else p.videoAuto;
        (p.(video := v, videoAuto := auto), sinks', Done(modified || switched.Changed? || auto != p.videoAuto))
  }

  /** An error leaves undone only what comes after it. `canAuto`: there is an estimator and it is not
      passive. */
  function SetVideo<S(==), L>(p: Peer<S>, vl: L, sinks: map<S, Sink<L>>, r: VideoRequest<S>,
                              canAuto: bool, unpauseWorks: bool, switchWorks: bool)
    : (Peer<S>, map<S, Sink<L>>, VideoResult)
    requires StreamKnown(p.video, sinks)
    requires r.stream.Some? && r.stream.value.Some? ==> r.stream.value.value in sinks
  {
    if r.disabled.None? then SwitchVideo(p, vl, sinks, r, canAuto, switchWorks, false)
    else
      var (p', sinks') := SetVideoDisabled(p, vl, sinks, r.disabled.value, unpauseWorks);
      SwitchVideo(p', vl, sinks', r, canAuto, switchWorks, p.videoDisabled != r.disabled.value)
  }

  // ---- a paused or disabled track is registered nowhere ---------------------------------------

  /** The reasons to pause win over the tracks' own flags; not the other way round, since unpausing
      can fail. */
  predicate FlagsRule<S>(p: Peer<S>) {
    && (p.paused || p.videoDisabled ==> p.video.paused)
    && (p.paused || p.audioDisabled ==> p.audio.paused)
  }

  ghost predicate PeerOk<S, L>(p: Peer<S>, vl: L, al: L, sinks: map<S, Sink<L>>) {
    FlagsRule(p) && FiledRight(p.video, vl, sinks) && FiledRight(p.audio, al, sinks)
  }

  ghost predicate OnlyTwoMove<S, L>(before: map<S, Sink<L>>, after: map<S, Sink<L>>, vl: L, al: L) {
    && after.Keys == before.Keys
    && forall s :: s in before ==> Members(after[s]) - {vl, al} == Members(before[s]) - {vl, al}
  }

  lemma OneOfTwoMoves<S, L>(a: map<S, Sink<L>>, b: map<S, Sink<L>>, moved: L, vl: L, al: L)
    requires OnlyMoves(a, b, moved) && moved in {vl, al}
    ensures OnlyTwoMove(a, b, vl, al)
  {
    forall s | s in a ensures Members(b[s]) - {vl, al} == Members(a[s]) - {vl, al} {
      assert Members(b[s]) - {vl, al} == (Members(b[s]) - {moved}) - {vl, al};
      assert Members(a[s]) - {vl, al} == (Members(a[s]) - {moved}) - {vl, al};
    }
  }

  lemma TwoMoveTwice<S, L>(a: map<S, Sink<L>>, b: map<S, Sink<L>>, c: map<S, Sink<L>>, vl: L, al: L)
    requires OnlyTwoMove(a, b, vl, al) && OnlyTwoMove(b, c, vl, al)
    ensures OnlyTwoMove(a, c, vl, al)
  {
  }

  /** What every peer method keeps. */
  ghost predicate PeerStep<S, L>(p': Peer<S>, vl: L, al: L, sinks: map<S, Sink<L>>, sinks': map<S, Sink<L>>,
                                 resizing: set<S>) {
    AllSinksOk(sinks', resizing) && PeerOk(p', vl, al, sinks') && OnlyTwoMove(sinks, sinks', vl, al)
  }

  /** One track method, seen from the peer: the other track stays where it was. */
  lemma VideoTrackStep<S, L>(p: Peer<S>, v: Track<S>, vl: L, al: L, sinks: map<S, Sink<L>>, sinks': map<S, Sink<L>>,
                             resizing: set<S>)
    requires PeerOk(p, vl, al, sinks) && vl != al && TrackStep(v, vl, sinks, sinks', resizing)
    ensures AllSinksOk(sinks', resizing) && OnlyTwoMove(sinks, sinks', vl, al)
    ensures FiledRight(v, vl, sinks') && FiledRight(p.audio, al, sinks')
  {
    OthersStayFiled(p.audio, al, sinks, sinks', vl);
    OneOfTwoMoves(sinks, sinks', vl, vl, al);
  }

  lemma AudioTrackStep<S, L>(v: Track<S>, a: Track<S>, vl: L, al: L, sinks: map<S, Sink<L>>, sinks': map<S, Sink<L>>,
                             resizing: set<S>)
    requires FiledRight(v, vl, sinks) && vl != al && TrackStep(a, al, sinks, sinks', resizing)
    ensures AllSinksOk(sinks', resizing) && OnlyTwoMove(sinks, sinks', vl, al)
    ensures FiledRight(v, vl, sinks') && FiledRight(a, al, sinks')
  {
    OthersStayFiled(v, vl, sinks, sinks', al);
    OneOfTwoMoves(sinks, sinks', al, vl, al);
  }

  lemma SetPausedKeeps<S, L>(p: Peer<S>, vl: L, al: L, sinks: map<S, Sink<L>>, resizing: set<S>, paused: bool,
                             vWorks: bool, aWorks: bool)
    requires AllSinksOk(sinks, resizing) && PeerOk(p, vl, al, sinks) && vl != al
    ensures var (p', sinks') := SetPaused(p, vl, al, sinks, paused, vWorks, aWorks);
      && PeerStep(p', vl, al, sinks, sinks', resizing)
      && p'.paused == paused && p'.video.stream == p.video.stream && p'.audioDisabled == p.audioDisabled
  {
    var (v, sinks1) := SetTrackPaused(p.video, vl, sinks, paused || p.videoDisabled, vWorks);
    SetTrackPausedKeeps(p.video, vl, sinks, resizing, paused || p.videoDisabled, vWorks);
    VideoTrackStep(p, v, vl, al, sinks, sinks1, resizing);
    var (a, sinks2) := SetTrackPaused(p.audio, al, sinks1, paused || p.audioDisabled, aWorks);
    SetTrackPausedKeeps(p.audio, al, sinks1, resizing, paused || p.audioDisabled, aWorks);
    AudioTrackStep(v, a, vl, al, sinks1, sinks2, resizing);
    TwoMoveTwice(sinks, sinks1, sinks2, vl, al);
  }

  lemma SetVideoDisabledKeeps<S, L>(p: Peer<S>, vl: L, al: L, sinks: map<S, Sink<L>>, resizing: set<S>, disabled: bool,
                                    works: bool)
    requires AllSinksOk(sinks, resizing) && PeerOk(p, vl, al, sinks) && vl != al
    ensures var (p', sinks') := SetVideoDisabled(p, vl, sinks, disabled, works);
      PeerStep(p', vl, al, sinks, sinks', resizing) && p'.paused == p.paused
  {
    if p.videoDisabled != disabled {
      var (v, sinks') := SetTrackPaused(p.video, vl, sinks, disabled || p.paused, works);
      SetTrackPausedKeeps(p.video, vl, sinks, resizing, disabled || p.paused, works);
      VideoTrackStep(p, v, vl, al, sinks, sinks', resizing);
    }
  }

  lemma SetAudioKeeps<S, L>(p: Peer<S>, vl: L, al: L, sinks: map<S, Sink<L>>, resizing: set<S>, disabled: Option<bool>,
                            works: bool)
    requires AllSinksOk(sinks, resizing) && PeerOk(p, vl, al, sinks) && vl != al
    ensures var (p', sinks', _) := SetAudio(p, al, sinks, disabled, works);
      PeerStep(p', vl, al, sinks, sinks', resizing) && p'.paused == p.paused
  {
    if disabled.Some? && p.audioDisabled != disabled.value {
      var (a, sinks') := SetTrackPaused(p.audio, al, sinks, disabled.value || p.paused, works);
      SetTrackPausedKeeps(p.audio, al, sinks, resizing, disabled.value || p.paused, works);
      AudioTrackStep(p.video, a, vl, al, sinks, sinks', resizing);
    }
  }

  lemma SwitchVideoKeeps<S, L>(p: Peer<S>, vl: L, al: L, sinks: map<S, Sink<L>>, resizing: set<S>, r: VideoRequest<S>,
                               canAuto: bool, works: bool, modified: bool)
    requires AllSinksOk(sinks, resizing) && PeerOk(p, vl, al, sinks) && vl != al
    requires r.stream.Some? && r.stream.value.Some? ==> r.stream.value.value in sinks
    ensures var (p', sinks', _) := SwitchVideo(p, vl, sinks, r, canAuto, works, modified);
      PeerStep(p', vl, al, sinks, sinks', resizing) && p'.paused == p.paused
  {
    if r.stream.Some? && r.stream.value.Some? {
      var target := r.stream.value.value;
      var (v, sinks', _) := SetStream(p.video, vl, sinks, target, works);
      SetStreamKeeps(p.video, vl, sinks, resizing, target, works);
      VideoTrackStep(p, v, vl, al, sinks, sinks', resizing);
    }
  }

  lemma PeerStepTwice<S, L>(p: Peer<S>, vl: L, al: L, a: map<S, Sink<L>>, b: map<S, Sink<L>>, c: map<S, Sink<L>>,
                            resizing: set<S>)
    requires OnlyTwoMove(a, b, vl, al) && PeerStep(p, vl, al, b, c, resizing)
    ensures PeerStep(p, vl, al, a, c, resizing)
  {
    TwoMoveTwice(a, b, c, vl, al);
  }

  /** SetVideo keeps the rules on every path, including each of its error returns. */
  lemma SetVideoKeeps<S, L>(p: Peer<S>, vl: L, al: L, sinks: map<S, Sink<L>>, resizing: set<S>, r: VideoRequest<S>,
                            canAuto: bool, unpauseWorks: bool, switchWorks: bool)
    requires AllSinksOk(sinks, resizing) && PeerOk(p, vl, al, sinks) && vl != al
    requires r.stream.Some? && r.stream.value.Some? ==> r.stream.value.value in sinks
    ensures var (p', sinks', _) := SetVideo(p, vl, sinks, r, canAuto, unpauseWorks, switchWorks);
      PeerStep(p', vl, al, sinks, sinks', resizing) && p'.paused == p.paused
  {
    if r.disabled.None? {
      SwitchVideoKeeps(p, vl, al, sinks, resizing, r, canAuto, switchWorks, false);
    } else {
      var (p1, sinks1) := SetVideoDisabled(p, vl, sinks, r.disabled.value, unpauseWorks);
      SetVideoDisabledKeeps(p, vl, al, sinks, resizing, r.disabled.value, unpauseWorks);
      var modified := p.videoDisabled != r.disabled.value;
      SwitchVideoKeeps(p1, vl, al, sinks1, resizing, r, canAuto, switchWorks, modified);
      var (p', sinks', _) := SwitchVideo(p1, vl, sinks1, r, canAuto, switchWorks, modified);
      PeerStepTwice(p', vl, al, sinks, sinks1, sinks', resizing);
    }
  }
}
