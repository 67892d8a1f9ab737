/** The WebRTC peer as an object that owns two tracks. */
module Peers {
  import opened Options
  import opened Streams
  import opened StreamSelector
  import Spec = PeerSpec
  import TrackSpec

  datatype VideoRequest = VideoRequest(disabled: Option<bool>, selector: Option<Selector>, auto: Option<bool>)

  class WebRTCPeer {
    const video: StreamSelector
    const canAuto: bool           // there is an estimator, and it is not passive
    const videoTrack: Track
    const audioTrack: Track
    var paused: bool
    var videoAuto: bool
    var videoDisabled: bool
    var audioDisabled: bool

    function State(): Spec.Peer<StreamSink>
      reads this, videoTrack, audioTrack
    {
      Spec.Peer(paused, videoAuto, videoDisabled, audioDisabled, videoTrack.State(), audioTrack.State())
    }

    /** Two tracks, on sinks that exist. */
    ghost predicate Valid(world: set<StreamSink>)
      reads this, videoTrack, audioTrack
    {
      && videoTrack != audioTrack
      && video.streams.Values <= world
      && (videoTrack.stream != null ==> videoTrack.stream in world)
      && (audioTrack.stream != null ==> audioTrack.stream in world)
    }

    /** The peer of a new connection: audio paused on the audio sink, no video stream yet. */
    constructor (video: StreamSelector, audio: StreamSink, canAuto: bool, ghost world: set<StreamSink>)
      requires video.streams.Values <= world && audio in world
      ensures fresh(videoTrack) && fresh(audioTrack) && Valid(world)
      ensures State() == Spec.NewPeer(audio)
      ensures this.video == video && this.canAuto == canAuto
    {
      var audioTrack := new Track();
      audioTrack.paused := true;
      audioTrack.stream := audio;
      var videoTrack := new Track();
      this.video, this.canAuto := video, canAuto;
      this.videoTrack, this.audioTrack := videoTrack, audioTrack;
      paused, videoAuto, videoDisabled, audioDisabled := false, false, false, true;
    }

    method SetPaused(isPaused: bool, vWorks: bool, aWorks: bool, ghost world: set<StreamSink>)
      requires Valid(world)
      modifies this`paused, videoTrack`paused, audioTrack`paused, world
      ensures Valid(world)
      ensures var (p, w) :=
          Spec.SetPaused(old(State()), videoTrack, audioTrack, old(World(world)), isPaused, vWorks, aWorks);
              State() == p && World(world) == w
    {
      videoTrack.SetPaused(isPaused || videoDisabled, vWorks, world);
      audioTrack.SetPaused(isPaused || audioDisabled, aWorks, world);
      label Paused:
      paused := isPaused;
      assert World(world) == old@Paused(World(world));
    }

    method SetVideoDisabled(disabled: bool, works: bool, ghost world: set<StreamSink>)
      requires Valid(world)
      modifies this`videoDisabled, videoTrack`paused, world
      ensures Valid(world)
      ensures var (p, w) := Spec.SetVideoDisabled(old(State()), videoTrack, old(World(world)), disabled, works);
              State() == p && World(world) == w
      ensures videoDisabled == disabled
    {
      if videoDisabled != disabled {
        videoDisabled := disabled;
        assert World(world) == old(World(world));
        videoTrack.SetPaused(disabled || paused, works, world);
      }
    }

    /** Look up the stream that a selector asks for. */
    method FindStream(s: Selector, ghost world: set<StreamSink>) returns (stream: Option<StreamSink>)
      requires Valid(world) && video.Usable(s)
      ensures Answered(World(world), s, stream)
      ensures stream.Some? ==> stream.value in world
    {
      stream := video.GetStream(s);
      video.AnswersAgree(video.Snapshot(), World(world), s, stream);
      video.AnswerIsStream(World(world), s, stream);
    }

    /** The answer that the selector gets while the sinks are in the states w. */
    ghost predicate Answered(w: Snap, s: Selector, stream: Option<StreamSink>) {
      video.Covers(w) && video.Usable(s) && video.Answers(w, s, stream)
    }

    /** Put the track on the stream that a selector asks for. */
    method ChooseStream(s: Selector, works: bool, ghost world: set<StreamSink>)
      returns (stream: Option<StreamSink>, switched: TrackSpec.Outcome)
      requires Valid(world) && video.Usable(s)
      modifies videoTrack`stream, world
      ensures Valid(world)
      ensures stream.Some? ==> stream.value in world
      ensures Answered(old(World(world)), s, stream)
      ensures stream.None? ==> videoTrack.State() == old(videoTrack.State()) && World(world) == old(World(world))
      ensures stream.Some? ==>
                var (v, w, o) := TrackSpec.SetStream(old(videoTrack.State()), videoTrack, old(World(world)),
                                                     stream.value, works);
                videoTrack.State() == v && World(world) == w && switched == o
    {
      hide Answered;
      stream := FindStream(s, world);
      switched := TrackSpec.Unchanged;
      if stream.Some? {
        switched := videoTrack.SetStream(stream.value, works, world);
      }
    }

    method SwitchAuto(auto: Option<bool>) returns (modified: bool)
      modifies this`videoAuto
      ensures videoAuto == if auto.Some? then auto.value && canAuto else old(videoAuto)
      ensures modified == (videoAuto != old(videoAuto))
    {
      modified := auto.Some? && videoAuto != (auto.value && canAuto);
      if modified {
        videoAuto := auto.value && canAuto;
      }
    }

    /** The stream and the automatic mode of a request; `found` is what its selector came up with. */
    method SwitchVideo(r: VideoRequest, works: bool, changed: bool, ghost world: set<StreamSink>)
      returns (result: Spec.VideoResult, ghost found: Option<Option<StreamSink>>)
      requires Valid(world) && (r.selector.Some? ==> video.Usable(r.selector.value))
      modifies this`videoAuto, videoTrack`stream, world
      ensures Valid(world)
      ensures FoundBy(r, found, world, old(World(world)))
      ensures var (p, w, res) := Spec.SwitchVideo(old(State()), videoTrack, old(World(world)),
                                                  Spec.VideoRequest(r.disabled, found, r.auto),
                                                  canAuto, works, changed);
              State() == p && World(world) == w && result == res
    {
      hide World, Answered;
      var modified := changed;
      found := None;
      if r.selector.Some? {
        var stream, switched := ChooseStream(r.selector.value, works, world);
        found := Some(stream);
        if stream.None? {
          return Spec.StreamNotFound, found;
        }
        if switched.Failed? {
          return Spec.SwitchFailed, found;
        }
        modified := modified || switched.Changed?;
      }
      label Switched:
      var autoModified := SwitchAuto(r.auto);
      assert World(world) == old@Switched(World(world));
      result := Spec.Done(modified || autoModified);
    }

    /** `found` is what the selector of the request, if it has one, is answered with in the states w. */
    ghost predicate FoundBy(r: VideoRequest, found: Option<Option<StreamSink>>, world: set<StreamSink>, w: Snap) {
      && (found.Some? <==> r.selector.Some?)
      && (found.Some? && found.value.Some? ==> found.value.value in world)
      && (found.Some? ==> Answered(w, r.selector.value, found.value))
    }

    /** A request to disable or enable the video takes effect before the selector is looked up. */
    ghost function LookedUpIn(r: VideoRequest, p: Spec.Peer<StreamSink>, w: Snap, works: bool): Snap
      requires TrackSpec.StreamKnown(p.video, w)
    {
      if r.disabled.None? then w else Spec.SetVideoDisabled(p, videoTrack, w, r.disabled.value, works).1
    }

    method SetVideo(r: VideoRequest, unpauseWorks: bool, switchWorks: bool, ghost world: set<StreamSink>)
      returns (result: Spec.VideoResult, ghost found: Option<Option<StreamSink>>)
      requires Valid(world) && (r.selector.Some? ==> video.Usable(r.selector.value))
      modifies this`videoDisabled, this`videoAuto, videoTrack`paused, videoTrack`stream, world
      ensures Valid(world)
      ensures FoundBy(r, found, world, LookedUpIn(r, old(State()), old(World(world)), unpauseWorks))
      ensures var (p, w, res) := Spec.SetVideo(old(State()), videoTrack, old(World(world)),
                                               Spec.VideoRequest(r.disabled, found, r.auto),
                                               canAuto, unpauseWorks, switchWorks);
              State() == p && World(world) == w && result == res
      ensures videoDisabled == if r.disabled.Some? then r.disabled.value else old(videoDisabled)
    {
      var modified := false;
      if r.disabled.Some? {
        modified := videoDisabled != r.disabled.value;
        SetVideoDisabled(r.disabled.value, unpauseWorks, world);
      }
      result, found := SwitchVideo(r, switchWorks, modified, world);
    }

    method SetAudio(disabled: Option<bool>, works: bool, ghost world: set<StreamSink>) returns (modified: bool)
      requires Valid(world)
      modifies this`audioDisabled, audioTrack`paused, world
      ensures Valid(world)
      ensures var (p, w, m) := Spec.SetAudio(old(State()), audioTrack, old(World(world)), disabled, works);
              State() == p && World(world) == w && modified == m
      ensures audioDisabled == if disabled.Some? then disabled.value else old(audioDisabled)
    {
      modified := false;
      if disabled.Some? && audioDisabled != disabled.value {
        audioDisabled := disabled.value;
        assert World(world) == old(World(world));
        audioTrack.SetPaused(disabled.value || paused, works, world);
        modified := true;
      }
    }
  }
}
