/** What the methods of a stream sink do to its state, as functions of values: one atomic step a
    method. `L` identifies a listener (the pointer under which the sink files it). */
module SinkSpec {
  import opened BitrateRing

  datatype Sink<L(==)> = Sink(
    waitForKf: bool,      // video sinks hold listeners back until a keyframe
    listeners: set<L>,
    lobby: set<L>,        // waiting for a keyframe
    pipeline: bool,       // is there a pipeline?
    keyframeDue: bool,    // the encoder owes a keyframe: it was just started, or asked for one
    rate: Rate)

  datatype Created = CreatedNew | AlreadyExists | CreateFailed

  function NewSink<L>(video: bool): Sink<L> {
    Sink(video, {}, {}, false, false, FRESH)
  }

  predicate Registered<L>(s: Sink<L>, l: L) {
    l in s.listeners || l in s.lobby
  }

  predicate Started<L>(s: Sink<L>) {
    |s.listeners| + |s.lobby| > 0
  }

  /** `works` says whether building the pipeline would succeed. */
  function CreatePipeline<L>(s: Sink<L>, works: bool): (Sink<L>, Created) {
    if s.pipeline then (s, AlreadyExists)
    else if works then (s.(pipeline := true, keyframeDue := true), CreatedNew)
    else (s, CreateFailed)
  }

  function DestroyPipeline<L>(s: Sink<L>): Sink<L> {
    if s.pipeline then s.(pipeline := false, rate := FRESH) else s
  }

  /** Make sure that a pipeline runs before the first listener comes; false if it cannot. */
  function Start<L>(s: Sink<L>, works: bool): (Sink<L>, bool) {
    if Started(s) then (s, true)
    else var (s', r) := CreatePipeline(s, works); (s', r != CreateFailed)
  }

  function Stop<L>(s: Sink<L>): Sink<L> {
    if Started(s) then s else DestroyPipeline(s)
  }

  /** The first one to enter the lobby asks a running encoder for a keyframe. */
  function Enter<L>(s: Sink<L>, l: L): Sink<L> {
    if s.waitForKf
    then s.(lobby := s.lobby + {l}, keyframeDue := s.keyframeDue || (s.pipeline && |s.lobby| == 0))
    else s.(listeners := s.listeners + {l})
  }

  function Leave<L>(s: Sink<L>, l: L): Sink<L> {
    s.(listeners := s.listeners - {l}, lobby := s.lobby - {l})
  }

  function AddListener<L>(s: Sink<L>, l: L, works: bool): (Sink<L>, bool) {
    var (s', ok) := Start(s, works);
    if ok then (Enter(s', l), true) else (s', false)
  }

  function RemoveListener<L>(s: Sink<L>, l: L): Sink<L> {
    Stop(Leave(s, l))
  }

  /** From one sink to another, which must be different. */
  function MoveListener<L>(s: Sink<L>, t: Sink<L>, l: L, works: bool): (Sink<L>, Sink<L>, bool) {
    var (t', ok) := Start(t, works);
    if ok then (Stop(Leave(s, l)), Enter(t', l), true) else (s, t', false)
  }

  /** A keyframe lets the lobby in; afterwards the sample goes to every listener. */
  function OnSample<L>(s: Sink<L>, x: Sample): Sink<L> {
    var s' := s.(rate := SaveSampleBitrate(s.rate, x.timestamp, x.length),
                 keyframeDue := s.keyframeDue && x.deltaUnit);
    if s.waitForKf && !x.deltaUnit && |s.lobby| > 0
    then s'.(listeners := s.listeners + s.lobby, lobby := {})
    else s'
  }

  /** Before a screen size change: one sink's share of destroyPipelines. */
  function BeforeResize<L>(s: Sink<L>): Sink<L> {
    if Started(s) then DestroyPipeline(s) else s
  }

  /** After it: one sink's share of recreatePipelines; false if that ends in a panic. */
  function AfterResize<L>(s: Sink<L>, works: bool): (Sink<L>, bool) {
    if Started(s) then var (s', r) := CreatePipeline(s, works); (s', r != CreateFailed)
    else (s, true)
  }

  // ---- what every sink keeps ------------------------------------------------------------------

  /** Everyone filed at the sink, in either map. */
  function Members<L>(s: Sink<L>): set<L> {
    s.listeners + s.lobby
  }

  /** `resizing`: destroyed for a screen size change and not yet recreated. Outside of that, there
      is a pipeline exactly while there is a listener. Nobody is in both maps, and whoever waits in
      the lobby of a running video sink has a keyframe coming. */
  ghost predicate SinkOk<L>(s: Sink<L>, resizing: bool) {
    && (s.pipeline ==> Members(s) != {})
    && (!resizing && Members(s) != {} ==> s.pipeline)
    && s.listeners !! s.lobby
    && (!s.waitForKf ==> s.lobby == {})
    && (s.pipeline && s.lobby != {} ==> s.keyframeDue)
  }

  lemma StartedIffMembers<L>(s: Sink<L>)
    ensures Started(s) <==> Members(s) != {}
  {
    if Members(s) == {} {
      assert s.listeners == {} && s.lobby == {};
    } else if s.listeners == {} {
      assert s.lobby != {};
    }
  }

  lemma StartKeeps<L>(s: Sink<L>, resizing: bool, works: bool)
    requires SinkOk(s, resizing)
    ensures var (s', ok) := Start(s, works);
            && (ok <==> works || Members(s) != {})
            && s'.listeners == s.listeners && s'.lobby == s.lobby && s'.waitForKf == s.waitForKf
            && (if !ok || Members(s) != {} then s' == s else s'.pipeline && s'.keyframeDue)
  {
    StartedIffMembers(s);
  }

  lemma EnterKeeps<L>(s: Sink<L>, l: L, resizing: bool)
    requires (resizing && Members(s) != {}) || s.pipeline
    requires !Registered(s, l) && s.listeners !! s.lobby && (!s.waitForKf ==> s.lobby == {})
    requires s.pipeline && s.lobby != {} ==> s.keyframeDue
    ensures SinkOk(Enter(s, l), resizing)
    ensures Members(Enter(s, l)) == Members(s) + {l}
  {
    if s.waitForKf {
      EnterLobbyKeeps(s, l, resizing);
    } else {
      assert Enter(s, l) == s.(listeners := s.listeners + {l});
      assert Members(Enter(s, l)) == Members(s) + {l};
    }
  }

  lemma EnterLobbyKeeps<L>(s: Sink<L>, l: L, resizing: bool)
    requires (resizing && Members(s) != {}) || s.pipeline
    requires !Registered(s, l) && s.listeners !! s.lobby && s.waitForKf
    requires s.pipeline && s.lobby != {} ==> s.keyframeDue
    ensures SinkOk(Enter(s, l), resizing)
    ensures Members(Enter(s, l)) == Members(s) + {l}
  {
    var s' := Enter(s, l);
    assert s'.lobby == s.lobby + {l} && s'.listeners == s.listeners;
    assert Members(s') == Members(s) + {l};
    if |s.lobby| == 0 { assert s.lobby == {}; }
  }

  lemma AddKeeps<L>(s: Sink<L>, l: L, resizing: bool, works: bool)
    requires SinkOk(s, resizing) && !Registered(s, l)
    ensures var (s', ok) := AddListener(s, l, works);
            && SinkOk(s', resizing)
            && (ok <==> works || Members(s) != {})
            && (if ok then Members(s') == Members(s) + {l} else s' == s)
  {
    StartKeeps(s, resizing, works);
    var (s1, ok) := Start(s, works);
    if ok { EnterKeeps(s1, l, resizing); }
  }

  lemma RemoveKeeps<L>(s: Sink<L>, l: L, resizing: bool)
    requires SinkOk(s, resizing)
    ensures SinkOk(RemoveListener(s, l), resizing)
    ensures Members(RemoveListener(s, l)) == Members(s) - {l}
  {
    var s1 := Leave(s, l);
    assert Members(s1) == Members(s) - {l};
    StartedIffMembers(s1);
    assert Members(Stop(s1)) == Members(s1);
  }

  /** A move is a removal at the source and an addition at the target, or nothing. */
  lemma MoveIsRemoveThenAdd<L>(s: Sink<L>, t: Sink<L>, l: L, works: bool)
    ensures var (s', t', ok) := MoveListener(s, t, l, works);
            && (t', ok) == AddListener(t, l, works)
            && s' == if ok then RemoveListener(s, l) else s
  {
  }

  /** Moving keeps both sinks in order, also when the target cannot start; then nothing changes. */
  lemma MoveKeeps<L>(s: Sink<L>, t: Sink<L>, l: L, rs: bool, rt: bool, works: bool)
    requires SinkOk(s, rs) && SinkOk(t, rt) && !Registered(t, l)
    ensures var (s', t', ok) := MoveListener(s, t, l, works);
            && SinkOk(s', rs) && SinkOk(t', rt)
            && (ok <==> works || Members(t) != {})
            && (if ok then Members(s') == Members(s) - {l} && Members(t') == Members(t) + {l}
                else s' == s && t' == t)
  {
    MoveIsRemoveThenAdd(s, t, l, works);
    AddKeeps(t, l, rt, works);
    RemoveKeeps(s, l, rs);
  }

  lemma SampleKeeps<L>(s: Sink<L>, x: Sample, resizing: bool)
    requires SinkOk(s, resizing)
    ensures SinkOk(OnSample(s, x), resizing)
    ensures Members(OnSample(s, x)) == Members(s)
  {
    assert Members(OnSample(s, x)) == Members(s);
    if |s.lobby| == 0 { assert s.lobby == {}; }
    if s.lobby == {} { assert |s.lobby| == 0; }
  }

  /** Destroying for a resize opens the exception, recreating closes it. */
  lemma ResizeKeeps<L>(s: Sink<L>, resizing: bool, works: bool)
    requires SinkOk(s, resizing)
    ensures SinkOk(BeforeResize(s), true) && Members(BeforeResize(s)) == Members(s)
    ensures var (s', ok) := AfterResize(s, works);
            Members(s') == Members(s) && (if ok then SinkOk(s', false) else s' == s)
  {
    StartedIffMembers(s);
  }
}
