/** Stream sinks and tracks as objects that change in place, under the locks of LockOrder. Each
    method is tied to the function that SinkSpec or TrackSpec gives for it. */
module Streams {
  import opened Options
  import Ring = BitrateRing
  import Spec = SinkSpec
  import TrackSpec

  class StreamSink {
    const id: string
    const waitForKf: bool
    var listeners: set<Track>
    var listenersKf: set<Track>   // keyframe lobby
    var pipeline: bool
    var keyframeDue: bool
    var brBuckets: map<int, nat>
    var bitrate: nat

    ghost function State(): Spec.Sink<Track>
      reads this
    {
      Spec.Sink(waitForKf, listeners, listenersKf, pipeline, keyframeDue, Ring.Rate(brBuckets, bitrate))
    }

    constructor (video: bool, id: string)
      ensures State() == Spec.NewSink(video) && this.id == id
    {
      waitForKf := video;
      this.id := id;
      listeners, listenersKf := {}, {};
      pipeline, keyframeDue := false, false;
      brBuckets, bitrate := map[], 0;
    }

    function ListenersCount(): (n: nat)
      reads this
      ensures n > 0 <==> Spec.Started(State())
    {
      |listeners| + |listenersKf|
    }

    method CreatePipeline(works: bool) returns (r: Spec.Created)
      modifies this
      ensures (State(), r) == Spec.CreatePipeline(old(State()), works)
    {
      if pipeline {
        return Spec.AlreadyExists;
      }
      if !works {
        return Spec.CreateFailed;
      }
      pipeline := true;
      keyframeDue := true;
      r := Spec.CreatedNew;
    }

    method DestroyPipeline()
      modifies this
      ensures State() == Spec.DestroyPipeline(old(State()))
    {
      if !pipeline {
        return;
      }
      pipeline := false;
      brBuckets := map[];
      bitrate := 0;
    }

    method Start(works: bool) returns (ok: bool)
      modifies this
      ensures (State(), ok) == Spec.Start(old(State()), works)
    {
      if |listeners| + |listenersKf| == 0 {
        var r := CreatePipeline(works);
        return r != Spec.CreateFailed;
      }
      ok := true;
    }

    method Stop()
      modifies this
      ensures State() == Spec.Stop(old(State()))
    {
      if |listeners| + |listenersKf| == 0 {
        DestroyPipeline();
      }
    }

    method addListener(listener: Track)
      modifies this
      ensures State() == Spec.Enter(old(State()), listener)
    {
      var emitKeyframe := false;
      if waitForKf {
        emitKeyframe := |listenersKf| == 0;
        listenersKf := listenersKf + {listener};
      } else {
        listeners := listeners + {listener};
      }
      if pipeline && emitKeyframe {
        keyframeDue := true;
      }
    }

    method removeListener(listener: Track)
      modifies this
      ensures State() == Spec.Leave(old(State()), listener)
    {
      listeners := listeners - {listener};
      listenersKf := listenersKf - {listener};
    }

    method AddListener(listener: Track, works: bool) returns (ok: bool)
      modifies this
      ensures (State(), ok) == Spec.AddListener(old(State()), listener, works)
    {
      ok := Start(works);
      if ok {
        addListener(listener);
      }
    }

    method RemoveListener(listener: Track)
      modifies this
      ensures State() == Spec.RemoveListener(old(State()), listener)
    {
      removeListener(listener);
      Stop();
    }

    /** The target is another sink: locking the same mutex twice would never return. */
    method MoveListenerTo(listener: Track, target: StreamSink, works: bool) returns (ok: bool)
      requires target != this
      modifies this, target
      ensures (State(), target.State(), ok)
           == Spec.MoveListener(old(State()), old(target.State()), listener, works)
    {
      ok := target.Start(works);
      if ok {
        removeListener(listener);
        target.addListener(listener);
        Stop();
      }
    }

    method SaveSampleBitrate(timestamp: int, delta: nat)
      modifies this`brBuckets, this`bitrate
      ensures Ring.Rate(brBuckets, bitrate)
              == Ring.SaveSampleBitrate(old(Ring.Rate(brBuckets, bitrate)), timestamp, delta)
    {
      var last := Ring.TruncMod(timestamp - 1, 3);
      var curr := Ring.TruncMod(timestamp, 3);
      var next := Ring.TruncMod(timestamp + 1, 3);
      if Ring.Bucket(brBuckets, next) != 0 {
        bitrate := Ring.Bucket(brBuckets, last);
        brBuckets := brBuckets[next := 0];
      }
      brBuckets := brBuckets[curr := Ring.Bucket(brBuckets, curr) + delta];
    }

    /** Move everyone from the lobby to the regular listeners. */
    method EmptyLobby()
      modifies this`listeners, this`listenersKf
      ensures State() == old(State()).(listeners := old(listeners) + old(listenersKf), lobby := {})
    {
      var waiting := listenersKf;
      while waiting != {}
        invariant waiting <= old(listenersKf) == listenersKf
        invariant listeners == old(listeners) + (old(listenersKf) - waiting)
        decreases waiting
      {
        var k :| k in waiting;
        listeners := listeners + {k};
        waiting := waiting - {k};
      }
      listenersKf := {};
    }

    /** Every listener gets the sample once, nobody else does. */
    method WriteToListeners(sample: Ring.Sample)
      modifies (set t | t in listeners)`received
      ensures forall t :: t in listeners ==> t.received == old(t.received) + [sample]
    {
      var rest := listeners;
      while rest != {}
        invariant rest <= listeners
        invariant forall t :: t in rest ==> t.received == old(t.received)
        invariant forall t :: t in listeners - rest ==> t.received == old(t.received) + [sample]
        decreases rest
      {
        var l :| l in rest;
        l.WriteSample(sample);
        rest := rest - {l};
      }
    }

    /** Every listener of the new state gets the sample once, nobody else does. */
    method OnSample(sample: Ring.Sample)
      modifies this, (set t | t in listeners + listenersKf)`received
      ensures State() == Spec.OnSample(old(State()), sample)
      ensures forall t :: t in listeners ==> t.received == old(t.received) + [sample]
      ensures forall t :: t in listenersKf && t !in listeners ==> t.received == old(t.received)
    {
      SaveSampleBitrate(sample.timestamp, sample.length);
      keyframeDue := keyframeDue && sample.deltaUnit;
      if waitForKf && !sample.deltaUnit && |listenersKf| > 0 {
        EmptyLobby();
      }
      WriteToListeners(sample);
    }
  }

  /** `received` is what has been written to the track's sample channel. */
  class Track {
    var received: seq<Ring.Sample>
    var paused: bool
    var stream: StreamSink?

    function State(): TrackSpec.Track<StreamSink>
      reads this
    {
      TrackSpec.Track(paused, if stream == null then None else Some(stream))
    }

    constructor ()
      ensures State() == TrackSpec.Track(false, None) && received == []
    {
      received, paused, stream := [], false, null;
    }

    method WriteSample(sample: Ring.Sample)
      modifies this`received
      ensures received == old(received) + [sample]
    {
      received := received + [sample];
    }

    // `world` is the set of all sinks. The three methods below say what happens in it when the track
    // is added at, removed from or moved between sinks.

    method Join(target: StreamSink, works: bool, ghost world: set<StreamSink>) returns (ok: bool)
      requires target in world
      modifies target
      ensures ok == TrackSpec.AddAt(old(World(world)), target, this, works).1
      ensures World(world) == TrackSpec.AddAt(old(World(world)), target, this, works).0
    {
      ok := target.AddListener(this, works);
      assert World(world) == old(World(world))[target := target.State()];
    }

    method Quit(source: StreamSink, ghost world: set<StreamSink>)
      requires source in world
      modifies source
      ensures World(world) == TrackSpec.RemoveAt(old(World(world)), source, this)
    {
      source.RemoveListener(this);
      assert World(world) == old(World(world))[source := source.State()];
    }

    method Switch(source: StreamSink, target: StreamSink, works: bool, ghost world: set<StreamSink>) returns (ok: bool)
      requires source in world && target in world && source != target
      modifies source, target
      ensures ok == TrackSpec.MoveAt(old(World(world)), source, target, this, works).1
      ensures World(world) == TrackSpec.MoveAt(old(World(world)), source, target, this, works).0
    {
      ok := source.MoveListenerTo(this, target, works);
      assert World(world) == old(World(world))[source := source.State()][target := target.State()];
    }

    method SetStream(target: StreamSink, works: bool, ghost world: set<StreamSink>) returns (r: TrackSpec.Outcome)
      requires target in world && (stream != null ==> stream in world)
      modifies this`stream, world
      ensures var (t, w, outcome) := TrackSpec.SetStream(old(State()), this, old(World(world)), target, works);
              State() == t && World(world) == w && r == outcome
    {
      ghost var w0 := World(world);
      if stream == target {
        return TrackSpec.Unchanged;
      }
      if paused {
        stream := target;
        assert World(world) == w0;
        return TrackSpec.Changed;
      }
      var ok;
      if stream != null {
        ok := Switch(stream, target, works, world);
      } else {
        ok := Join(target, works, world);
      }
      if !ok {
        return TrackSpec.Failed;
      }
      label Moved:
      stream := target;
      assert World(world) == old@Moved(World(world));
      r := TrackSpec.Changed;
    }

    method RemoveStream(ghost world: set<StreamSink>)
      requires stream != null ==> stream in world
      modifies this`stream, world
      ensures var (t, w) := TrackSpec.RemoveStream(old(State()), this, old(World(world)));
              State() == t && World(world) == w
    {
      if stream != null && !paused {
        Quit(stream, world);
      }
      label Quitted:
      stream := null;
      assert World(world) == old@Quitted(World(world));
    }

    method SetPaused(isPaused: bool, works: bool, ghost world: set<StreamSink>)
      requires stream != null ==> stream in world
      modifies this`paused, world
      ensures var (t, w) := TrackSpec.SetTrackPaused(old(State()), this, old(World(world)), isPaused, works);
              State() == t && World(world) == w
    {
      var ok := true;
      if paused != isPaused && stream != null {
        if isPaused {
          Quit(stream, world);
        } else {
          ok := Join(stream, works, world);
        }
      }
      label Filed:
      if ok {
        paused := isPaused;
      }
      assert World(world) == old@Filed(World(world));
    }
  }

  ghost function World(sinks: set<StreamSink>): map<StreamSink, Spec.Sink<Track>>
    reads sinks
  {
    map s | s in sinks :: s.State()
  }
}
