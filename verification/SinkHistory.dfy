/** The bitrate and the keyframes of one sink, told by the history of its calls. */
module SinkHistory {
  import opened BitrateRing
  import opened SinkSpec
  import opened Delivery

  // ---- the bitrate ----------------------------------------------------------------------------

  /** Event m takes the pipeline away. */
  predicate TakesDown<L(==)>(video: bool, run: seq<Event<L>>, m: nat)
    requires m < |run|
  {
    At(video, run, m).pipeline && !At(video, run, m + 1).pipeline
  }

  /** The events since the last one before n that took a pipeline away. */
  ghost predicate CountsFrom<L>(video: bool, run: seq<Event<L>>, k: nat, n: nat)
    requires n <= |run|
  {
    && k <= n && (k > 0 ==> TakesDown(video, run, k - 1))
    && forall m :: k <= m < n ==> !TakesDown(video, run, m)
  }

  lemma StartRate<L>(s: Sink<L>, works: bool)
    ensures Start(s, works).0.rate == s.rate && (s.pipeline ==> Start(s, works).0.pipeline)
  {
  }

  lemma RateStep<L>(s: Sink<L>, e: Event<L>)
    ensures var s' := Apply(s, e);
      if e.Emit? then
        s'.pipeline == s.pipeline && s'.rate == SaveSampleBitrate(s.rate, e.sample.timestamp, e.sample.length)
      else s'.rate == if s.pipeline && !s'.pipeline then FRESH else s.rate
  {
    match e
    case Add(_, works) => StartRate(s, works);
    case _ =>
  }

  lemma {:induction false} EmittedPrefix<L>(run: seq<Event<L>>, k: nat, n: nat)
    requires k <= n < |run|
    ensures Emitted(run, k, n + 1) == Emitted(run, k, n) + (if run[n].Emit? then [run[n].sample] else [])
  {
  }

  lemma CounterStep(h: seq<Sample>, x: Sample)
    ensures Counter(h + [x]) == SaveSampleBitrate(Counter(h), x.timestamp, x.length)
  {
    assert (h + [x])[..|h|] == h;
  }

  /** The counters of a sink are always those of the samples that have come since its last pipeline went. */
  lemma {:induction false} RateIsCounter<L>(video: bool, run: seq<Event<L>>, k: nat, n: nat)
    requires n <= |run| && CountsFrom(video, run, k, n)
    ensures At(video, run, n).rate == Counter(Emitted(run, k, n))
  {
    hide Apply, SaveSampleBitrate;
    if k < n {
      var b: nat := n - 1;
      RateIsCounter(video, run, k, b);
      RateStep(At(video, run, b), run[b]);
      assert !TakesDown(video, run, b);
      EmittedPrefix(run, k, b);
      if run[b].Emit? {
        CounterStep(Emitted(run, k, b), run[b].sample);
      } else {
        assert Emitted(run, k, b) + [] == Emitted(run, k, b);
      }
    } else if n > 0 {
      RateStep(At(video, run, n - 1), run[n - 1]);
      assert Emitted(run, n, n) == [];
    }
  }

  /** So from the third second on a sink that gets bytes in every second publishes the total of the second
      before. */
  lemma SinkPublishesPreviousSecond<L>(video: bool, run: seq<Event<L>>, k: nat, n: nat)
    requires n <= |run| && CountsFrom(video, run, k, n)
    requires var h := Emitted(run, k, n);
             h != [] && Ordered(h) && First(h) >= 0 && Gapless(h) && Now(h) >= First(h) + 2
    ensures At(video, run, n).rate.bitrate == BytesIn(Emitted(run, k, n), Now(Emitted(run, k, n)) - 1)
  {
    hide Counter, BytesIn, Gapless, Ordered;
    var h := Emitted(run, k, n);
    RateIsCounter(video, run, k, n);
    PublishedRateIsPreviousSecond(h, |h|);
    assert h[..|h|] == h;
  }

  // ---- keyframes ------------------------------------------------------------------------------

  /** Event m starts a pipeline, which begins with a keyframe, or it lets the first one into the lobby of a
      running one, which is asked for a keyframe. */
  ghost predicate Asks<L>(video: bool, run: seq<Event<L>>, m: nat)
    requires m < |run|
  {
    var s, s' := At(video, run, m), At(video, run, m + 1);
    || (!s.pipeline && s'.pipeline)
    || (run[m].Add? && video && s.pipeline && s.lobby == {})
  }

  ghost predicate DueSince<L>(video: bool, run: seq<Event<L>>, m: nat, n: nat)
    requires n <= |run|
  {
    m < n && Asks(video, run, m) && forall k :: m < k < n ==> !IsKeyframe(run[k])
  }

  lemma DueStep<L>(s: Sink<L>, e: Event<L>)
    ensures var s' := Apply(s, e);
      && s'.waitForKf == s.waitForKf
      && (s'.keyframeDue
          <==> || (!s.pipeline && s'.pipeline) || (e.Add? && s.waitForKf && s.pipeline && s.lobby == {})
               || (s.keyframeDue && !IsKeyframe(e)))
  {
    if |s.lobby| == 0 { assert s.lobby == {}; }
    if s.lobby == {} { assert |s.lobby| == 0; }
  }

  lemma {:induction false} SinkKind<L>(video: bool, run: seq<Event<L>>, n: nat)
    requires n <= |run|
    ensures At(video, run, n).waitForKf == video
  {
    hide Apply;
    if n > 0 {
      SinkKind(video, run, n - 1);
      DueStep(At(video, run, n - 1), run[n - 1]);
    }
  }

  /** A keyframe is due exactly if one has been asked for and none has come since. */
  lemma {:induction false} KeyframeDueIff<L>(video: bool, run: seq<Event<L>>, n: nat)
    requires n <= |run|
    ensures At(video, run, n).keyframeDue <==> exists m: nat :: DueSince(video, run, m, n)
  {
    hide Apply, Asks, IsKeyframe;
    if n > 0 {
      var b: nat := n - 1;
      KeyframeDueIff(video, run, b);
      DueAt(video, run, b);
      if Asks(video, run, b) {
        assert DueSince(video, run, b, n);
      } else if IsKeyframe(run[b]) {
        assert forall m: nat :: !DueSince(video, run, m, n);
      } else {
        assert forall m: nat :: DueSince(video, run, m, n) <==> DueSince(video, run, m, b);
      }
    }
  }

  lemma DueAt<L>(video: bool, run: seq<Event<L>>, n: nat)
    requires n < |run|
    ensures At(video, run, n + 1).keyframeDue
            <==> Asks(video, run, n) || (At(video, run, n).keyframeDue && !IsKeyframe(run[n]))
  {
    hide Apply, IsKeyframe;
    SinkKind(video, run, n);
    DueStep(At(video, run, n), run[n]);
  }
}
