/** Who receives which sample, over any run of one sink. */
module Delivery {
  import opened BitrateRing
  import opened SinkSpec

  /** One atomic call on the sink. A successful move is an Add at its target and a Remove at its
      source. */
  datatype Event<L> =
    | Add(listener: L, works: bool)
    | Remove(listener: L)
    | Emit(sample: Sample)
    | Create(works: bool)
    | Destroy

  function Apply<L>(s: Sink<L>, e: Event<L>): Sink<L> {
    match e
    case Add(l, works) => AddListener(s, l, works).0
    case Remove(l) => RemoveListener(s, l)
    case Emit(x) => OnSample(s, x)
    case Create(works) => CreatePipeline(s, works).0
    case Destroy => DestroyPipeline(s)
  }

  /** The state of a new sink after the first n events of the run. */
  function At<L>(video: bool, run: seq<Event<L>>, n: nat): Sink<L>
    requires n <= |run|
  {
    if n == 0 then NewSink(video) else Apply(At(video, run, n - 1), run[n - 1])
  }

  /** Event i of the run is a call that registers l. */
  ghost predicate Registers<L>(video: bool, run: seq<Event<L>>, i: nat, l: L) {
    && i < |run|
    && run[i].Add? && run[i].listener == l
    && AddListener(At(video, run, i), l, run[i].works).1
  }

  ghost predicate Removes<L>(e: Event<L>, l: L) {
    e.Remove? && e.listener == l
  }

  /** Sample k of the run is sent to l: the sink sends to all listeners it has after OnSample. */
  ghost predicate Receives<L>(video: bool, run: seq<Event<L>>, k: nat, l: L) {
    k < |run| && run[k].Emit? && l in At(video, run, k + 1).listeners
  }

  predicate IsKeyframe<L>(e: Event<L>) {
    e.Emit? && !e.sample.deltaUnit
  }

  /** l registered at event i and was not removed before event n. */
  ghost predicate StaysFrom<L>(video: bool, run: seq<Event<L>>, i: nat, n: nat, l: L) {
    && i < n <= |run|
    && Registers(video, run, i, l)
    && forall m :: i < m < n ==> !Removes(run[m], l)
  }

  ghost predicate KeyframeBetween<L>(run: seq<Event<L>>, i: nat, n: nat) {
    exists j :: i < j < n <= |run| && IsKeyframe(run[j])
  }

  ghost predicate ShouldBeFiled<L>(video: bool, run: seq<Event<L>>, n: nat, l: L) {
    exists i :: StaysFrom(video, run, i, n, l)
  }

  ghost predicate ShouldListen<L>(video: bool, run: seq<Event<L>>, n: nat, l: L) {
    exists i :: StaysFrom(video, run, i, n, l) && (video ==> KeyframeBetween(run, i, n))
  }

  lemma StaysFromStep<L>(video: bool, run: seq<Event<L>>, i: nat, n: nat, l: L)
    requires n < |run|
    ensures StaysFrom(video, run, i, n + 1, l)
            <==> if i < n then StaysFrom(video, run, i, n, l) && !Removes(run[n], l)
                 else i == n && Registers(video, run, n, l)
  {
  }

  lemma KeyframeStep<L>(run: seq<Event<L>>, i: nat, n: nat)
    requires i < n < |run|
    ensures KeyframeBetween(run, i, n + 1) <==> KeyframeBetween(run, i, n) || IsKeyframe(run[n])
  {
  }

  lemma ShouldBeFiledStep<L>(video: bool, run: seq<Event<L>>, n: nat, l: L)
    requires n < |run|
    ensures ShouldBeFiled(video, run, n + 1, l)
            <==> Registers(video, run, n, l) || (ShouldBeFiled(video, run, n, l) && !Removes(run[n], l))
  {
    var m := n + 1;
    if i: nat :| StaysFrom(video, run, i, m, l) {
      StaysFromStep(video, run, i, n, l);
    }
    StaysFromStep(video, run, n, n, l);
    if i: nat :| StaysFrom(video, run, i, n, l) {
      StaysFromStep(video, run, i, n, l);
    }
  }

  lemma ShouldListenStep<L>(video: bool, run: seq<Event<L>>, n: nat, l: L)
    requires n < |run|
    ensures ShouldListen(video, run, n + 1, l)
            <==> || (!video && Registers(video, run, n, l))
                 || (ShouldListen(video, run, n, l) && !Removes(run[n], l))
                 || (ShouldBeFiled(video, run, n, l) && IsKeyframe(run[n]))
  {
    var m := n + 1;
    if i: nat :| StaysFrom(video, run, i, m, l) && (video ==> KeyframeBetween(run, i, m)) {
      StaysFromStep(video, run, i, n, l);
      if i < n { KeyframeStep(run, i, n); }
    }
    StaysFromStep(video, run, n, n, l);
    if i: nat :| StaysFrom(video, run, i, n, l) && (video ==> KeyframeBetween(run, i, n)) {
      StaysFromStep(video, run, i, n, l);
      KeyframeStep(run, i, n);
    }
    if i: nat :| StaysFrom(video, run, i, n, l) {
      StaysFromStep(video, run, i, n, l);
      KeyframeStep(run, i, n);
    }
  }

  /** What one event does to the two maps. */
  ghost predicate MapsStep<L>(s: Sink<L>, e: Event<L>, l: L) {
    var s', adds := Apply(s, e), e.Add? && e.listener == l && AddListener(s, l, e.works).1;
    && s'.waitForKf == s.waitForKf
    && (l in s'.listeners <==> || (!s.waitForKf && adds)
                               || (l in s.listeners && !Removes(e, l))
                               || (s.waitForKf && l in s.lobby && IsKeyframe(e)))
    && (l in s'.lobby <==> || (s.waitForKf && adds)
                           || (l in s.lobby && !Removes(e, l) && !(s.waitForKf && IsKeyframe(e))))
  }

  lemma AddMaps<L>(s: Sink<L>, e: Event<L>, l: L)
    requires e.Add?
    ensures MapsStep(s, e, l)
  {
    var (s1, ok) := Start(s, e.works);
    assert s1.listeners == s.listeners && s1.lobby == s.lobby && s1.waitForKf == s.waitForKf;
  }

  lemma RemoveMaps<L>(s: Sink<L>, e: Event<L>, l: L)
    requires e.Remove?
    ensures MapsStep(s, e, l)
  {
    var s1 := Leave(s, e.listener);
    assert Stop(s1).listeners == s1.listeners && Stop(s1).lobby == s1.lobby;
  }

  lemma EmitMaps<L>(s: Sink<L>, e: Event<L>, l: L)
    requires e.Emit?
    ensures MapsStep(s, e, l)
  {
    if |s.lobby| == 0 { assert s.lobby == {}; }
    if l in s.lobby { assert s.lobby != {}; }
  }

  lemma ApplyMaps<L>(s: Sink<L>, e: Event<L>, l: L)
    ensures MapsStep(s, e, l)
  {
    match e
    case Add(_, _) => AddMaps(s, e, l);
    case Remove(_) => RemoveMaps(s, e, l);
    case Emit(_) => EmitMaps(s, e, l);
    case Create(_) =>
    case Destroy =>
  }

  ghost predicate FollowsHistory<L>(video: bool, run: seq<Event<L>>, n: nat, l: L)
    requires n <= |run|
  {
    && At(video, run, n).waitForKf == video
    && (Registered(At(video, run, n), l) <==> ShouldBeFiled(video, run, n, l))
    && (l in At(video, run, n).listeners <==> ShouldListen(video, run, n, l))
  }

  lemma FollowsStep<L>(video: bool, run: seq<Event<L>>, n: nat, l: L)
    requires n < |run| && FollowsHistory(video, run, n, l)
    requires MapsStep(At(video, run, n), run[n], l)
    requires ShouldBeFiled(video, run, n + 1, l)
             <==> Registers(video, run, n, l) || (ShouldBeFiled(video, run, n, l) && !Removes(run[n], l))
    requires ShouldListen(video, run, n + 1, l)
             <==> || (!video && Registers(video, run, n, l))
                  || (ShouldListen(video, run, n, l) && !Removes(run[n], l))
                  || (ShouldBeFiled(video, run, n, l) && IsKeyframe(run[n]))
    requires !video ==> (ShouldBeFiled(video, run, n, l) <==> ShouldListen(video, run, n, l))
    ensures FollowsHistory(video, run, n + 1, l)
  {
    assert At(video, run, n + 1) == Apply(At(video, run, n), run[n]);
  }

  /** The two maps of the sink, read off the history: a listener is filed if it registered and was
      not removed since, and it is among the regular ones if, on a video sink, a keyframe has come
      since. */
  lemma {:induction false} MapsFollowHistory<L>(video: bool, run: seq<Event<L>>, n: nat, l: L)
    requires n <= |run|
    ensures FollowsHistory(video, run, n, l)
  {
    if n > 0 {
      var m := n - 1;
      MapsFollowHistory(video, run, m, l);
      ShouldBeFiledStep(video, run, m, l);
      ShouldListenStep(video, run, m, l);
      ApplyMaps(At(video, run, m), run[m], l);
      if !video { AudioListensWhenFiled(run, m, l); }
      FollowsStep(video, run, m, l);
    }
  }

  lemma AudioListensWhenFiled<L>(run: seq<Event<L>>, n: nat, l: L)
    ensures ShouldBeFiled(false, run, n, l) <==> ShouldListen(false, run, n, l)
  {
    if i: nat :| StaysFrom(false, run, i, n, l) {
      assert ShouldListen(false, run, n, l);
    }
  }

  /** A sample reaches a listener exactly if the listener registered before it, has not been removed
      since and, on a video sink, some keyframe lies between the two or is the sample itself. */
  lemma ReceivesIff<L>(video: bool, run: seq<Event<L>>, k: nat, l: L)
    requires k < |run| && run[k].Emit?
    ensures Receives(video, run, k, l)
            <==> exists i :: StaysFrom(video, run, i, k, l) && (video ==> KeyframeBetween(run, i, k + 1))
  {
    MapsFollowHistory(video, run, k + 1, l);
    var m := k + 1;
    if i: nat :| StaysFrom(video, run, i, m, l) && (video ==> KeyframeBetween(run, i, m)) {
      StaysFromStep(video, run, i, k, l);
    }
    if i: nat :| StaysFrom(video, run, i, k, l) && (video ==> KeyframeBetween(run, i, m)) {
      StaysFromStep(video, run, i, k, l);
    }
  }

  // ---- the received samples are one contiguous run --------------------------------------------

  /** The samples that the sink emits in events i (inclusive) to n (exclusive). */
  function Emitted<L>(run: seq<Event<L>>, i: nat, n: nat): seq<Sample>
    requires i <= n <= |run|
  {
    if i == n then []
    else Emitted(run, i, n - 1) + (if run[n - 1].Emit? then [run[n - 1].sample] else [])
  }

  function FromFirstKeyframe(xs: seq<Sample>): seq<Sample> {
    if xs == [] then []
    else if xs[0].deltaUnit then FromFirstKeyframe(xs[1..])
    else xs
  }

  /** Everything the sink has sent to l in its first n events, in order. */
  ghost function Received<L>(video: bool, run: seq<Event<L>>, n: nat, l: L): seq<Sample>
    requires n <= |run|
  {
    if n == 0 then []
    else Received(video, run, n - 1, l) + (if Receives(video, run, n - 1, l) then [run[n - 1].sample] else [])
  }

  lemma {:induction false} FromFirstKeyframeAppend(xs: seq<Sample>, x: Sample)
    ensures FromFirstKeyframe(xs + [x])
         == if FromFirstKeyframe(xs) == [] && x.deltaUnit then [] else FromFirstKeyframe(xs) + [x]
  {
    if xs == [] {
      assert xs + [x] == [x];
      assert [x][1..] == [];
    } else {
      assert (xs + [x])[1..] == xs[1..] + [x];
      if xs[0].deltaUnit { FromFirstKeyframeAppend(xs[1..], x); }
    }
  }

  /** What a listener registered at event i should have got by event n: all of it on an audio sink,
      from the first keyframe on a video sink. */
  function Owed<L>(video: bool, run: seq<Event<L>>, i: nat, n: nat): seq<Sample>
    requires i <= n <= |run|
  {
    if video then FromFirstKeyframe(Emitted(run, i, n)) else Emitted(run, i, n)
  }

  ghost predicate Contiguous<L>(video: bool, run: seq<Event<L>>, i: nat, n: nat, l: L)
    requires i < n <= |run|
  {
    && Registered(At(video, run, n), l)
    && Received(video, run, n, l) == Received(video, run, i, l) + Owed(video, run, i + 1, n)
    && (l in At(video, run, n).listeners <==> !video || Owed(video, run, i + 1, n) != [])
  }

  lemma ContiguousStart<L>(video: bool, run: seq<Event<L>>, i: nat, l: L)
    requires Registers(video, run, i, l) && !Registered(At(video, run, i), l)
    requires At(video, run, i).waitForKf == video && MapsStep(At(video, run, i), run[i], l)
    ensures Contiguous(video, run, i, i + 1, l)
  {
    assert Owed(video, run, i + 1, i + 1) == [];
    assert At(video, run, i + 1) == Apply(At(video, run, i), run[i]);
  }

  /** Whether the emission in event n is owed to a listener registered at event i. */
  predicate OwesEvent<L>(video: bool, run: seq<Event<L>>, i: nat, n: nat)
    requires i < n < |run|
  {
    run[n].Emit? && (!video || Owed(video, run, i + 1, n) != [] || IsKeyframe(run[n]))
  }

  lemma ReceivesWhenOwed<L>(video: bool, run: seq<Event<L>>, i: nat, n: nat, l: L)
    requires i < n < |run| && Registered(At(video, run, n), l) && !Removes(run[n], l)
    requires l in At(video, run, n).listeners <==> !video || Owed(video, run, i + 1, n) != []
    requires At(video, run, n).waitForKf == video && MapsStep(At(video, run, n), run[n], l)
    ensures Receives(video, run, n, l) <==> OwesEvent(video, run, i, n)
  {
    assert At(video, run, n + 1) == Apply(At(video, run, n), run[n]);
  }

  lemma ContiguousStep<L>(video: bool, run: seq<Event<L>>, i: nat, n: nat, l: L)
    requires i < n < |run| && Contiguous(video, run, i, n, l) && !Removes(run[n], l)
    requires At(video, run, n).waitForKf == video && MapsStep(At(video, run, n), run[n], l)
    ensures Contiguous(video, run, i, n + 1, l)
  {
    ReceivesWhenOwed(video, run, i, n, l);
    ContiguousMaps(video, run, i, n, l);
    var before, owed := Received(video, run, i, l), Owed(video, run, i + 1, n);
    assert Received(video, run, n + 1, l) == before + Owed(video, run, i + 1, n + 1) by {
      OwedStep(video, run, i + 1, n);
      assert Received(video, run, n, l) == before + owed;
    }
  }

  lemma ContiguousMaps<L>(video: bool, run: seq<Event<L>>, i: nat, n: nat, l: L)
    requires i < n < |run| && Registered(At(video, run, n), l) && !Removes(run[n], l)
    requires l in At(video, run, n).listeners <==> !video || Owed(video, run, i + 1, n) != []
    requires At(video, run, n).waitForKf == video && MapsStep(At(video, run, n), run[n], l)
    ensures Registered(At(video, run, n + 1), l)
    ensures l in At(video, run, n + 1).listeners <==> !video || Owed(video, run, i + 1, n + 1) != []
  {
    OwedStep(video, run, i + 1, n);
    assert At(video, run, n + 1) == Apply(At(video, run, n), run[n]);
  }

  /** While l is registered from event i on, it receives what the sink emits, without a gap: on an
      audio sink from the start, on a video sink from the first keyframe. */
  lemma {:induction false} DeliveryIsContiguous<L>(video: bool, run: seq<Event<L>>, i: nat, n: nat, l: L)
    requires StaysFrom(video, run, i, n, l)
    requires !Registered(At(video, run, i), l)
    ensures Contiguous(video, run, i, n, l)
  {
    var m := n - 1;
    assert At(video, run, m).waitForKf == video by { MapsFollowHistory(video, run, m, l); }
    ApplyMaps(At(video, run, m), run[m], l);
    if i < m {
      StaysFromStep(video, run, i, m, l);
      DeliveryIsContiguous(video, run, i, m, l);
      ContiguousStep(video, run, i, m, l);
    } else {
      ContiguousStart(video, run, i, l);
    }
  }

  lemma OwedStep<L>(video: bool, run: seq<Event<L>>, i: nat, n: nat)
    requires 0 < i <= n < |run|
    ensures Owed(video, run, i, n + 1)
         == if OwesEvent(video, run, i - 1, n) then Owed(video, run, i, n) + [run[n].sample]
            else Owed(video, run, i, n)
  {
    var before := Emitted(run, i, n);
    if run[n].Emit? {
      FromFirstKeyframeAppend(before, run[n].sample);
    } else {
      assert before + [] == before;
    }
  }
}
