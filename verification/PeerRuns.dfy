/** What the requests of a peer leave behind: its flags after any one call and after any run of calls,
    whatever happens to the sinks in between. */
module PeerRuns {
  import opened Options
  import opened SinkSpec
  import opened TrackSpec
  import opened PeerSpec
  import opened Exposure

  // ---- one call -------------------------------------------------------------------------------

  function Requested<T>(request: Option<T>, before: T): T {
    if request.Some? then request.value else before
  }

  /** The request names a stream other than the track's, which is to be joined and cannot start. */
  predicate SwitchFails<S(==), L>(p: Peer<S>, sinks: map<S, Sink<L>>, r: VideoRequest<S>, w1: bool, w2: bool)
    requires StreamKnown(p.video, sinks)
             && (r.stream.Some? && r.stream.value.Some? ==> r.stream.value.value in sinks)
  {
    && r.stream.Some? && r.stream.value.Some? && r.stream.value != p.video.stream
    && VideoUnpaused(p, sinks, r, w1) && !CanStart(sinks[r.stream.value.value], w2)
  }

  /** The whole of the peer after SetVideo. The flag is stored on every path; the stream and the automatic
      mode are those of the request unless an error comes first. */
  ghost predicate VideoIsSet<S, L>(p: Peer<S>, sinks: map<S, Sink<L>>, r: VideoRequest<S>, canAuto: bool, w1: bool,
                                   w2: bool, p': Peer<S>, result: VideoResult)
    requires StreamKnown(p.video, sinks)
             && (r.stream.Some? && r.stream.value.Some? ==> r.stream.value.value in sinks)
  {
    && p'.paused == p.paused && p'.audioDisabled == p.audioDisabled && p'.audio == p.audio
    && p'.videoDisabled == Requested(r.disabled, p.videoDisabled)
    && (p'.video.paused <==> !VideoUnpaused(p, sinks, r, w1))
    && (result == StreamNotFound <==> r.stream == Some(None))
    && (result == SwitchFailed <==> SwitchFails(p, sinks, r, w1, w2))
    && p'.video.stream == (if result.Done? && r.stream.Some? then r.stream.value else p.video.stream)
    && p'.videoAuto == (if result.Done? && r.auto.Some? then r.auto.value && canAuto else p.videoAuto)
    && (result.Done? ==> (result.modified <==> !SameFlags(p, p')))
  }

  /** Nothing that a client is told about its video has changed. */
  predicate SameFlags<S(==)>(p: Peer<S>, p': Peer<S>) {
    p'.videoDisabled == p.videoDisabled && p'.video.stream == p.video.stream && p'.videoAuto == p.videoAuto
  }

  lemma SetStreamIs<S, L>(t: Track<S>, l: L, sinks: map<S, Sink<L>>, target: S, works: bool)
    requires StreamKnown(t, sinks) && target in sinks
    ensures var (t', _, outcome) := SetStream(t, l, sinks, target, works);
      && t' == t.(stream := if outcome.Failed? then t.stream else Some(target))
      && (outcome.Failed? <==> t.stream != Some(target) && !t.paused && !CanStart(sinks[target], works))
      && (outcome.Unchanged? <==> t.stream == Some(target))
  {
    hide CanStart, AddListener, Start, Stop, Leave, Enter;
    AddsIffCanStart(sinks[target], l, works);
    if t.stream.Some? { MoveIsRemoveThenAdd(sinks[t.stream.value], sinks[target], l, works); }
  }

  /** What the part after `disabled` does to p. */
  ghost predicate VideoIsSwitched<S, L>(p: Peer<S>, sinks: map<S, Sink<L>>, r: VideoRequest<S>, canAuto: bool,
                                        works: bool, before: bool, p': Peer<S>, result: VideoResult)
    requires r.stream.Some? && r.stream.value.Some? ==> r.stream.value.value in sinks
  {
    && p' == p.(video := p'.video, videoAuto := p'.videoAuto) && p'.video.paused == p.video.paused
    && (result == StreamNotFound <==> r.stream == Some(None))
    && (result == SwitchFailed
        <==> && r.stream.Some? && r.stream.value.Some? && r.stream.value != p.video.stream
             && !p.video.paused && !CanStart(sinks[r.stream.value.value], works))
    && p'.video.stream == (if result.Done? && r.stream.Some? then r.stream.value else p.video.stream)
    && p'.videoAuto == (if result.Done? && r.auto.Some? then r.auto.value && canAuto else p.videoAuto)
    && (result.Done? ==>
          (result.modified <==> before || p'.video.stream != p.video.stream || p'.videoAuto != p.videoAuto))
  }

  lemma SwitchToIs<S, L>(p: Peer<S>, vl: L, sinks: map<S, Sink<L>>, r: VideoRequest<S>, canAuto: bool, works: bool,
                         before: bool, target: S)
    requires StreamKnown(p.video, sinks) && target in sinks && r.stream == Some(Some(target))
    ensures var (p', _, result) := SwitchVideo(p, vl, sinks, r, canAuto, works, before);
            VideoIsSwitched(p, sinks, r, canAuto, works, before, p', result)
  {
    hide CanStart, SetStream;
    SetStreamIs(p.video, vl, sinks, target, works);
    var (v, _, switched) := SetStream(p.video, vl, sinks, target, works);
    var auto := if r.auto.Some? then r.auto.value && canAuto else p.videoAuto;
    var (p', _, result) := SwitchVideo(p, vl, sinks, r, canAuto, works, before);
    if switched.Failed? {
      assert p' == p.(video := v) && result == SwitchFailed;
    } else {
      assert p' == p.(video := v, videoAuto := auto);
      assert result == Done(before || switched.Changed? || auto != p.videoAuto);
    }
  }

  lemma SwitchIs<S, L>(p: Peer<S>, vl: L, sinks: map<S, Sink<L>>, r: VideoRequest<S>, canAuto: bool, works: bool,
                       before: bool)
    requires StreamKnown(p.video, sinks)
             && (r.stream.Some? && r.stream.value.Some? ==> r.stream.value.value in sinks)
    ensures var (p', _, result) := SwitchVideo(p, vl, sinks, r, canAuto, works, before);
            VideoIsSwitched(p, sinks, r, canAuto, works, before, p', result)
  {
    hide CanStart, SetStream;
    if r.stream.Some? && r.stream.value.Some? {
      hide VideoIsSwitched, SwitchVideo;
      SwitchToIs(p, vl, sinks, r, canAuto, works, before, r.stream.value.value);
    }
  }

  /** What the part about `disabled` does to p. */
  ghost predicate VideoIsDisabled<S, L>(p: Peer<S>, sinks: map<S, Sink<L>>, r: VideoRequest<S>, works: bool,
                                        p1: Peer<S>, sinks1: map<S, Sink<L>>)
    requires StreamKnown(p.video, sinks) && r.disabled.Some?
  {
    && p1 == p.(video := p1.video, videoDisabled := r.disabled.value) && p1.video.stream == p.video.stream
    && (p1.video.paused <==> !VideoUnpaused(p, sinks, r, works))
    && sinks1.Keys == sinks.Keys
    && forall s :: s in sinks && p.video.stream != Some(s) ==> sinks1[s] == sinks[s]
  }

  lemma DisabledIs<S, L>(p: Peer<S>, vl: L, sinks: map<S, Sink<L>>, r: VideoRequest<S>, works: bool)
    requires StreamKnown(p.video, sinks) && r.disabled.Some?
    ensures var (p1, sinks1) := SetVideoDisabled(p, vl, sinks, r.disabled.value, works);
            VideoIsDisabled(p, sinks, r, works, p1, sinks1)
  {
    hide AddListener, RemoveListener, VideoUnpaused;
    DisablingIs(p, vl, sinks, r, works);
  }

  lemma DisabledThenSwitched<S, L>(p: Peer<S>, sinks: map<S, Sink<L>>, r: VideoRequest<S>, canAuto: bool, w1: bool,
                                   w2: bool, p1: Peer<S>, sinks1: map<S, Sink<L>>, p': Peer<S>, result: VideoResult)
    requires StreamKnown(p.video, sinks) && r.disabled.Some?
             && (r.stream.Some? && r.stream.value.Some? ==> r.stream.value.value in sinks)
    requires VideoIsDisabled(p, sinks, r, w1, p1, sinks1)
    requires VideoIsSwitched(p1, sinks1, r, canAuto, w2, p.videoDisabled != r.disabled.value, p', result)
    ensures VideoIsSet(p, sinks, r, canAuto, w1, w2, p', result)
  {
    hide CanStart, VideoUnpaused;
  }

  lemma SetVideoIs<S, L>(p: Peer<S>, vl: L, sinks: map<S, Sink<L>>, r: VideoRequest<S>, canAuto: bool, w1: bool,
                         w2: bool)
    requires StreamKnown(p.video, sinks)
             && (r.stream.Some? && r.stream.value.Some? ==> r.stream.value.value in sinks)
    ensures var (p', _, result) := SetVideo(p, vl, sinks, r, canAuto, w1, w2);
            VideoIsSet(p, sinks, r, canAuto, w1, w2, p', result)
  {
    hide SwitchVideo, SetVideoDisabled, CanStart;
    if r.disabled.None? {
      SwitchIs(p, vl, sinks, r, canAuto, w2, false);
    } else {
      hide VideoIsDisabled, VideoIsSwitched, VideoIsSet;
      DisabledIs(p, vl, sinks, r, w1);
      var (p1, sinks1) := SetVideoDisabled(p, vl, sinks, r.disabled.value, w1);
      StillKnown(p, sinks, r, w1, p1, sinks1);
      SwitchIs(p1, vl, sinks1, r, canAuto, w2, p.videoDisabled != r.disabled.value);
      var (p', _, result) := SwitchVideo(p1, vl, sinks1, r, canAuto, w2, p.videoDisabled != r.disabled.value);
      DisabledThenSwitched(p, sinks, r, canAuto, w1, w2, p1, sinks1, p', result);
    }
  }

  lemma StillKnown<S, L>(p: Peer<S>, sinks: map<S, Sink<L>>, r: VideoRequest<S>, works: bool, p1: Peer<S>,
                         sinks1: map<S, Sink<L>>)
    requires StreamKnown(p.video, sinks) && r.disabled.Some? && VideoIsDisabled(p, sinks, r, works, p1, sinks1)
    ensures StreamKnown(p1.video, sinks1) && sinks1.Keys == sinks.Keys
  {
  }

  /** The whole of the peer after SetAudio, and whether it says that something changed. */
  lemma SetAudioIs<S, L>(p: Peer<S>, al: L, sinks: map<S, Sink<L>>, disabled: Option<bool>, works: bool)
    requires StreamKnown(p.audio, sinks)
    ensures var (p', _, modified) := SetAudio(p, al, sinks, disabled, works);
      && p' == p.(audioDisabled := Requested(disabled, p.audioDisabled), audio := p'.audio)
      && p'.audio.stream == p.audio.stream
      && (p'.audio.paused
          <==> if p'.audioDisabled == p.audioDisabled then p.audio.paused
               else p'.audioDisabled || p.paused || !CanUnpause(p.audio, sinks, works))
      && (modified <==> p'.audioDisabled != p.audioDisabled)
  {
    hide AddListener, RemoveListener, CanStart, CanUnpause;
    UnpausesIff(p.audio, al, sinks, works);
  }

  /** The whole of the peer after SetPaused. What the audio finds is what the video has left it. */
  lemma SetPausedIs<S, L>(p: Peer<S>, vl: L, al: L, sinks: map<S, Sink<L>>, paused: bool, vWorks: bool, aWorks: bool)
    requires StreamsKnown(p, sinks)
    ensures var (p', _) := SetPaused(p, vl, al, sinks, paused, vWorks, aWorks);
      && p' == p.(paused := paused, video := p'.video, audio := p'.audio)
      && p'.video.stream == p.video.stream && p'.audio.stream == p.audio.stream
      && (p'.video.paused <==> paused || p.videoDisabled || !CanUnpause(p.video, sinks, vWorks))
      && (paused || p.audioDisabled ==> p'.audio.paused)
      && (p'.audio.paused && aWorks ==> paused || p.audioDisabled)
  {
    hide AddListener, RemoveListener, SetTrackPaused;
    PausedIs(p.video, vl, sinks, paused || p.videoDisabled, vWorks);
    var sinks1 := SetTrackPaused(p.video, vl, sinks, paused || p.videoDisabled, vWorks).1;
    PausedIs(p.audio, al, sinks1, paused || p.audioDisabled, aWorks);
  }

  lemma PausedIs<S, L>(t: Track<S>, l: L, sinks: map<S, Sink<L>>, paused: bool, works: bool)
    requires StreamKnown(t, sinks)
    ensures var (t', sinks') := SetTrackPaused(t, l, sinks, paused, works);
      && t'.stream == t.stream && sinks'.Keys == sinks.Keys
      && (t'.paused <==> paused || !CanUnpause(t, sinks, works))
  {
    hide AddListener, RemoveListener, CanStart;
    UnpausesIff(t, l, sinks, works);
  }

  // ---- runs of calls --------------------------------------------------------------------------

  datatype Call<+S> =
    | Pausing(isPaused: bool, vWorks: bool, aWorks: bool)
    | AskingVideo(request: VideoRequest<S>, unpauseWorks: bool, switchWorks: bool)
    | AskingAudio(disabled: Option<bool>, works: bool)

  /** The call can be made while the sinks are these. */
  predicate Allowed<S, L>(p: Peer<S>, sinks: map<S, Sink<L>>, c: Call<S>) {
    && StreamsKnown(p, sinks)
    && (c.AskingVideo? && c.request.stream.Some? && c.request.stream.value.Some? ==>
          c.request.stream.value.value in sinks)
  }

  function After<S(==), L>(p: Peer<S>, vl: L, al: L, sinks: map<S, Sink<L>>, canAuto: bool, c: Call<S>): Peer<S>
    requires Allowed(p, sinks, c)
  {
    match c
    case Pausing(b, vWorks, aWorks) => SetPaused(p, vl, al, sinks, b, vWorks, aWorks).0
    case AskingVideo(r, w1, w2) => SetVideo(p, vl, sinks, r, canAuto, w1, w2).0
    case AskingAudio(d, works) => SetAudio(p, al, sinks, d, works).0
  }

  /** A new peer gets the calls, one after the other; between them the sinks may change in any way. */
  ghost predicate IsRun<S, L>(vl: L, al: L, audio: S, canAuto: bool, peers: seq<Peer<S>>,
                                          worlds: seq<map<S, Sink<L>>>, calls: seq<Call<S>>) {
    && |peers| == |calls| + 1 && |worlds| == |calls|
    && peers[0] == NewPeer(audio)
    && forall i :: 0 <= i < |calls| ==>
         Allowed(peers[i], worlds[i], calls[i]) && peers[i + 1] == After(peers[i], vl, al, worlds[i], canAuto, calls[i])
  }

  /** What the last SetPaused said. */
  function LastPaused<S>(calls: seq<Call<S>>): bool {
    if calls == [] then false
    else
      var c := calls[|calls| - 1];
      if c.Pausing? then c.isPaused else LastPaused(calls[..|calls| - 1])
  }

  /** What the last request that said anything about it did to the video, which is on at first. */
  function LastVideoDisabled<S>(calls: seq<Call<S>>): bool {
    if calls == [] then false
    else
      var c := calls[|calls| - 1];
      if c.AskingVideo? && c.request.disabled.Some? then c.request.disabled.value
      else LastVideoDisabled(calls[..|calls| - 1])
  }

  /** And to the audio, which is off at first. */
  function LastAudioDisabled<S>(calls: seq<Call<S>>): bool {
    if calls == [] then true
    else
      var c := calls[|calls| - 1];
      if c.AskingAudio? && c.disabled.Some? then c.disabled.value else LastAudioDisabled(calls[..|calls| - 1])
  }

  /** Every pipeline that the call might need can be built. */
  predicate Works<S>(c: Call<S>) {
    match c
    case Pausing(_, vWorks, aWorks) => vWorks && aWorks
    case AskingVideo(_, w1, w2) => w1 && w2
    case AskingAudio(_, works) => works
  }

  /** The flags are what was asked for last, and a track is paused if any of its reasons holds; `works`: and
      only then. */
  ghost predicate AsAsked<S>(p: Peer<S>, calls: seq<Call<S>>, works: bool) {
    && p.paused == LastPaused(calls)
    && p.videoDisabled == LastVideoDisabled(calls)
    && p.audioDisabled == LastAudioDisabled(calls)
    && (LastPaused(calls) || LastVideoDisabled(calls) ==> p.video.paused)
    && (LastPaused(calls) || LastAudioDisabled(calls) ==> p.audio.paused)
    && (works ==> (p.video.paused ==> p.paused || p.videoDisabled) && (p.audio.paused ==> p.paused || p.audioDisabled))
  }

  lemma CallAsAsked<S, L>(p: Peer<S>, vl: L, al: L, sinks: map<S, Sink<L>>, canAuto: bool, before: seq<Call<S>>,
                          c: Call<S>, works: bool)
    requires Allowed(p, sinks, c) && AsAsked(p, before, works) && (works ==> Works(c))
    ensures AsAsked(After(p, vl, al, sinks, canAuto, c), before + [c], works)
  {
    hide SetPaused, SetVideo, SetAudio;
    assert (before + [c])[..|before|] == before;
    match c
    case Pausing(b, vWorks, aWorks) => SetPausedIs(p, vl, al, sinks, b, vWorks, aWorks);
    case AskingVideo(r, w1, w2) => SetVideoIs(p, vl, sinks, r, canAuto, w1, w2);
    case AskingAudio(d, w) => SetAudioIs(p, al, sinks, d, w);
  }

  /** After any run the three flags are what was asked for last, however the sinks have changed, and a track
      that is not paused was not asked to be; if all pipelines could be built, exactly the others are. */
  lemma {:induction false} FlagsFollowRequests<S, L>(vl: L, al: L, audio: S, canAuto: bool, peers: seq<Peer<S>>,
                                                     worlds: seq<map<S, Sink<L>>>, calls: seq<Call<S>>, n: nat,
                                                     works: bool)
    requires IsRun(vl, al, audio, canAuto, peers, worlds, calls) && n < |peers|
    requires works ==> forall i :: 0 <= i < n ==> Works(calls[i])
    ensures AsAsked(peers[n], calls[..n], works)
  {
    hide After, Allowed, AsAsked;
    if n == 0 {
      NewAsAsked(audio, calls[..0], works);
    } else {
      FlagsFollowRequests(vl, al, audio, canAuto, peers, worlds, calls, n - 1, works);
      CallAsAsked(peers[n - 1], vl, al, worlds[n - 1], canAuto, calls[..n - 1], calls[n - 1], works);
      assert peers[n - 1 + 1] == After(peers[n - 1], vl, al, worlds[n - 1], canAuto, calls[n - 1]);
      assert calls[..n] == calls[..n - 1] + [calls[n - 1]];
    }
  }

  lemma NewAsAsked<S>(audio: S, calls: seq<Call<S>>, works: bool)
    requires calls == []
    ensures AsAsked(NewPeer(audio), calls, works)
  {
  }

  // ---- the stream and the automatic mode ------------------------------------------------------

  /** Call m asks for a video, and no error keeps it from being set. */
  ghost predicate Succeeds<S, L>(peers: seq<Peer<S>>, worlds: seq<map<S, Sink<L>>>, calls: seq<Call<S>>, m: nat)
    requires m < |calls| < |peers| && |worlds| == |calls| && Allowed(peers[m], worlds[m], calls[m])
  {
    && calls[m].AskingVideo? && calls[m].request.stream != Some(None)
    && !SwitchFails(peers[m], worlds[m], calls[m].request, calls[m].unpauseWorks, calls[m].switchWorks)
  }

  ghost predicate NamesStream<S, L>(peers: seq<Peer<S>>, worlds: seq<map<S, Sink<L>>>, calls: seq<Call<S>>, m: nat)
    requires m < |calls| < |peers| && |worlds| == |calls| && Allowed(peers[m], worlds[m], calls[m])
  {
    Succeeds(peers, worlds, calls, m) && calls[m].request.stream.Some?
  }

  ghost predicate SaysAuto<S, L>(peers: seq<Peer<S>>, worlds: seq<map<S, Sink<L>>>, calls: seq<Call<S>>, m: nat)
    requires m < |calls| < |peers| && |worlds| == |calls| && Allowed(peers[m], worlds[m], calls[m])
  {
    Succeeds(peers, worlds, calls, m) && calls[m].request.auto.Some?
  }

  /** One call either is such a request, or leaves stream and automatic mode as they were. */
  lemma ChoiceStep<S, L>(vl: L, al: L, audio: S, canAuto: bool, peers: seq<Peer<S>>, worlds: seq<map<S, Sink<L>>>,
                         calls: seq<Call<S>>, m: nat)
    requires IsRun(vl, al, audio, canAuto, peers, worlds, calls) && m < |calls|
    ensures Allowed(peers[m], worlds[m], calls[m])
    ensures peers[m + 1].video.stream
            == if NamesStream(peers, worlds, calls, m) then calls[m].request.stream.value else peers[m].video.stream
    ensures peers[m + 1].videoAuto
            == if SaysAuto(peers, worlds, calls, m) then calls[m].request.auto.value && canAuto
               else peers[m].videoAuto
  {
    hide SetPaused, SetVideo, SetAudio, SwitchFails, VideoUnpaused, CanStart;
    match calls[m]
    case Pausing(b, vWorks, aWorks) => SetPausedIs(peers[m], vl, al, worlds[m], b, vWorks, aWorks);
    case AskingVideo(r, w1, w2) => VideoChoice(peers[m], vl, worlds[m], canAuto, r, w1, w2);
    case AskingAudio(d, works) => SetAudioIs(peers[m], al, worlds[m], d, works);
  }

  lemma VideoChoice<S, L>(p: Peer<S>, vl: L, sinks: map<S, Sink<L>>, canAuto: bool, r: VideoRequest<S>, w1: bool,
                          w2: bool)
    requires StreamKnown(p.video, sinks)
             && (r.stream.Some? && r.stream.value.Some? ==> r.stream.value.value in sinks)
    ensures var p', done := SetVideo(p, vl, sinks, r, canAuto, w1, w2).0,
                            r.stream != Some(None) && !SwitchFails(p, sinks, r, w1, w2);
      && p'.video.stream == (if done && r.stream.Some? then r.stream.value else p.video.stream)
      && p'.videoAuto == (if done && r.auto.Some? then r.auto.value && canAuto else p.videoAuto)
  {
    hide SetVideo, SwitchFails, VideoUnpaused;
    SetVideoIs(p, vl, sinks, r, canAuto, w1, w2);
  }

  ghost predicate AllAllowed<S, L>(peers: seq<Peer<S>>, worlds: seq<map<S, Sink<L>>>, calls: seq<Call<S>>) {
    && |worlds| == |calls| < |peers|
    && forall i :: 0 <= i < |calls| ==> Allowed(peers[i], worlds[i], calls[i])
  }

  /** Request m has named the stream, and none since has named one. */
  ghost predicate NamedSince<S, L>(peers: seq<Peer<S>>, worlds: seq<map<S, Sink<L>>>, calls: seq<Call<S>>, m: nat,
                                   n: nat)
    requires n <= |calls| && AllAllowed(peers, worlds, calls)
  {
    m < n && NamesStream(peers, worlds, calls, m)
    && forall k: nat :: m < k < n ==> !NamesStream(peers, worlds, calls, k)
  }

  /** The video streams from what the last request that could be met has named. */
  lemma {:induction false} StreamFollowsRequests<S, L>(vl: L, al: L, audio: S, canAuto: bool, peers: seq<Peer<S>>,
                                                       worlds: seq<map<S, Sink<L>>>, calls: seq<Call<S>>, n: nat)
    requires IsRun(vl, al, audio, canAuto, peers, worlds, calls) && n < |peers|
    ensures AllAllowed(peers, worlds, calls)
    ensures peers[n].video.stream.None? <==> forall m: nat :: m < n ==> !NamesStream(peers, worlds, calls, m)
    ensures forall m: nat :: NamedSince(peers, worlds, calls, m, n) ==>
              peers[n].video.stream == calls[m].request.stream.value
  {
    hide After, NamesStream, SaysAuto;
    if n > 0 {
      var b: nat := n - 1;
      StreamFollowsRequests(vl, al, audio, canAuto, peers, worlds, calls, b);
      ChoiceStep(vl, al, audio, canAuto, peers, worlds, calls, b);
      NamesOne(peers, worlds, calls);
      forall m: nat | NamedSince(peers, worlds, calls, m, n)
        ensures peers[n].video.stream == calls[m].request.stream.value
      {
        if m < b { assert NamedSince(peers, worlds, calls, m, b); }
      }
    }
  }

  lemma NamesOne<S, L>(peers: seq<Peer<S>>, worlds: seq<map<S, Sink<L>>>, calls: seq<Call<S>>)
    requires AllAllowed(peers, worlds, calls)
    ensures forall m: nat :: m < |calls| && NamesStream(peers, worlds, calls, m) ==>
              calls[m].AskingVideo? && calls[m].request.stream.Some? && calls[m].request.stream.value.Some?
  {
  }

  ghost predicate SaidSince<S, L>(peers: seq<Peer<S>>, worlds: seq<map<S, Sink<L>>>, calls: seq<Call<S>>, m: nat,
                                  n: nat)
    requires n <= |calls| && AllAllowed(peers, worlds, calls)
  {
    m < n && SaysAuto(peers, worlds, calls, m) && forall k: nat :: m < k < n ==> !SaysAuto(peers, worlds, calls, k)
  }

  /** And it switches by itself exactly if the last request that could be met, and said anything about that,
      turned it on, and there is something to go by. */
  lemma {:induction false} AutoFollowsRequests<S, L>(vl: L, al: L, audio: S, canAuto: bool, peers: seq<Peer<S>>,
                                                     worlds: seq<map<S, Sink<L>>>, calls: seq<Call<S>>, n: nat)
    requires IsRun(vl, al, audio, canAuto, peers, worlds, calls) && n < |peers|
    ensures AllAllowed(peers, worlds, calls)
    ensures peers[n].videoAuto
            <==> canAuto && exists m: nat :: SaidSince(peers, worlds, calls, m, n) && calls[m].request.auto.value
  {
    hide After, NamesStream, SaysAuto;
    if n > 0 {
      var b: nat := n - 1;
      AutoFollowsRequests(vl, al, audio, canAuto, peers, worlds, calls, b);
      ChoiceStep(vl, al, audio, canAuto, peers, worlds, calls, b);
      if SaysAuto(peers, worlds, calls, b) {
        assert SaidSince(peers, worlds, calls, b, n);
        assert forall m: nat :: SaidSince(peers, worlds, calls, m, n) ==> m == b;
      } else {
        assert forall m: nat :: SaidSince(peers, worlds, calls, m, n) <==> SaidSince(peers, worlds, calls, m, b);
      }
    }
  }
}
