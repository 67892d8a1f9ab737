/** Tracks as listeners of sinks, and peers that own two of them: what their methods do, as functions
    of values. `S` names a sink, `L` a listener. */
module TrackSpec {
  import opened Options
  import opened SinkSpec

  datatype Track<+S> = Track(paused: bool, stream: Option<S>)

  datatype Outcome = Unchanged | Changed | Failed

  predicate StreamKnown<S, L>(t: Track<S>, sinks: map<S, Sink<L>>) {
    t.stream.Some? ==> t.stream.value in sinks
  }

  function AddAt<S, L>(sinks: map<S, Sink<L>>, s: S, l: L, works: bool): (map<S, Sink<L>>, bool)
    requires s in sinks
  {
    var (a, ok) := AddListener(sinks[s], l, works);
    (sinks[s := a], ok)
  }

  function RemoveAt<S, L>(sinks: map<S, Sink<L>>, s: S, l: L): map<S, Sink<L>>
    requires s in sinks
  {
    sinks[s := RemoveListener(sinks[s], l)]
  }

  function MoveAt<S, L>(sinks: map<S, Sink<L>>, s: S, t: S, l: L, works: bool): (map<S, Sink<L>>, bool)
    requires s in sinks && t in sinks
  {
    var (a, b, ok) := MoveListener(sinks[s], sinks[t], l, works);
    (sinks[s := a][t := b], ok)
  }

  /** `works` says whether the target's pipeline could be built, should that be needed. */
  function SetStream<S(==), L>(t: Track<S>, l: L, sinks: map<S, Sink<L>>, target: S, works: bool)
    : (Track<S>, map<S, Sink<L>>, Outcome)
    requires target in sinks && StreamKnown(t, sinks)
  {
    if t.stream == Some(target) then (t, sinks, Unchanged)
    else if t.paused then (t.(stream := Some(target)), sinks, Changed)
    else match t.stream
      case Some(source) =>
        var (sinks', ok) := MoveAt(sinks, source, target, l, works);
        if ok then (t.(stream := Some(target)), sinks', Changed) else (t, sinks', Failed)
      case None =>
        var (sinks', ok) := AddAt(sinks, target, l, works);
        if ok then (t.(stream := Some(target)), sinks', Changed) else (t, sinks', Failed)
  }

  function RemoveStream<S, L>(t: Track<S>, l: L, sinks: map<S, Sink<L>>): (Track<S>, map<S, Sink<L>>)
    requires StreamKnown(t, sinks)
  {
    if t.stream.None? || t.paused then (t.(stream := None), sinks)
    else (t.(stream := None), RemoveAt(sinks, t.stream.value, l))
  }

  /** A track that cannot be registered stays paused. */
  function SetTrackPaused<S, L>(t: Track<S>, l: L, sinks: map<S, Sink<L>>, paused: bool, works: bool)
    : (Track<S>, map<S, Sink<L>>)
    requires StreamKnown(t, sinks)
  {
    if t.paused == paused || t.stream.None? then (t.(paused := paused), sinks)
    else
      var s := t.stream.value;
      if paused then (t.(paused := true), RemoveAt(sinks, s, l))
      else
        var (sinks', ok) := AddAt(sinks, s, l, works);
        (if ok then t.(paused := false) else t, sinks')
  }

  // ---- a track is registered where it says, and nowhere else ----------------------------------

  ghost predicate AllSinksOk<S, L>(sinks: map<S, Sink<L>>, resizing: set<S>) {
    forall s :: s in sinks ==> SinkOk(sinks[s], s in resizing)
  }

  /** The sink at which a track ought to be filed. */
  function Place<S>(t: Track<S>): Option<S> {
    if t.paused then None else t.stream
  }

  ghost predicate FiledAt<S, L>(l: L, sinks: map<S, Sink<L>>, place: Option<S>) {
    forall s :: s in sinks ==> (l in Members(sinks[s]) <==> place == Some(s))
  }

  /** l is filed at exactly the sink its track streams from, and at none while it is paused. */
  ghost predicate FiledRight<S, L>(t: Track<S>, l: L, sinks: map<S, Sink<L>>) {
    StreamKnown(t, sinks) && FiledAt(l, sinks, Place(t))
  }

  /** Nobody but l may have come or gone. */
  ghost predicate OnlyMoves<S, L>(before: map<S, Sink<L>>, after: map<S, Sink<L>>, l: L) {
    && after.Keys == before.Keys
    && forall s :: s in before ==> Members(after[s]) - {l} == Members(before[s]) - {l}
  }

  lemma RegisteredIffMember<L>(s: Sink<L>, l: L)
    ensures Registered(s, l) <==> l in Members(s)
  {
  }

  /** One sink changes, by l coming, going or neither. */
  lemma ReplaceSink<S, L>(sinks: map<S, Sink<L>>, s: S, a: Sink<L>, l: L, resizing: set<S>, place: Option<S>)
    requires s in sinks && AllSinksOk(sinks, resizing) && SinkOk(a, s in resizing)
    requires Members(a) == if place == Some(s) then Members(sinks[s]) + {l} else Members(sinks[s]) - {l}
    requires forall r :: r in sinks && r != s ==> (l in Members(sinks[r]) <==> place == Some(r))
    ensures AllSinksOk(sinks[s := a], resizing)
    ensures OnlyMoves(sinks, sinks[s := a], l)
    ensures FiledAt(l, sinks[s := a], place)
  {
    assert Members(a) - {l} == Members(sinks[s]) - {l};
  }

  lemma OnlyMovesTwice<S, L>(a: map<S, Sink<L>>, b: map<S, Sink<L>>, c: map<S, Sink<L>>, l: L)
    requires OnlyMoves(a, b, l) && OnlyMoves(b, c, l)
    ensures OnlyMoves(a, c, l)
  {
  }

  lemma NothingMoves<S, L>(sinks: map<S, Sink<L>>, l: L)
    ensures OnlyMoves(sinks, sinks, l)
  {
  }

  /** Every sink is in order, l is filed at `place` only, and no one else moved. */
  ghost predicate StepOk<S, L>(l: L, before: map<S, Sink<L>>, after: map<S, Sink<L>>, resizing: set<S>,
                               place: Option<S>) {
    AllSinksOk(after, resizing) && OnlyMoves(before, after, l) && FiledAt(l, after, place)
  }

  /** Add l at s, where it is not filed anywhere. */
  lemma AddAtOk<S, L>(sinks: map<S, Sink<L>>, s: S, l: L, resizing: set<S>, works: bool)
    requires s in sinks && AllSinksOk(sinks, resizing) && FiledAt(l, sinks, None)
    ensures var (sinks', ok) := AddAt(sinks, s, l, works);
      StepOk(l, sinks, sinks', resizing, if ok then Some(s) else None) && (!ok ==> sinks' == sinks)
  {
    var (a, ok) := AddListener(sinks[s], l, works);
    RegisteredIffMember(sinks[s], l);
    AddKeeps(sinks[s], l, s in resizing, works);
    if ok {
      ReplaceSink(sinks, s, a, l, resizing, Some(s));
    } else {
      assert sinks[s := a] == sinks;
    }
  }

  /** Remove l from s, the sink where it is filed. */
  lemma RemoveAtOk<S, L>(sinks: map<S, Sink<L>>, s: S, l: L, resizing: set<S>)
    requires s in sinks && AllSinksOk(sinks, resizing) && FiledAt(l, sinks, Some(s))
    ensures StepOk(l, sinks, RemoveAt(sinks, s, l), resizing, None)
  {
    RemoveKeeps(sinks[s], l, s in resizing);
    ReplaceSink(sinks, s, RemoveListener(sinks[s], l), l, resizing, None);
  }

  lemma MoveAtIsRemoveThenAdd<S, L>(sinks: map<S, Sink<L>>, s: S, t: S, l: L, works: bool)
    requires s in sinks && t in sinks && s != t
    ensures MoveAt(sinks, s, t, l, works).1 == AddAt(RemoveAt(sinks, s, l), t, l, works).1
    ensures MoveAt(sinks, s, t, l, works).1 ==>
              MoveAt(sinks, s, t, l, works) == AddAt(RemoveAt(sinks, s, l), t, l, works)
  {
    MoveIsRemoveThenAdd(sinks[s], sinks[t], l, works);
  }

  /** Move l from s, where it is filed, to another sink; nothing at all happens if that cannot start. */
  lemma MoveAtOk<S, L>(sinks: map<S, Sink<L>>, s: S, t: S, l: L, resizing: set<S>, works: bool)
    requires s in sinks && t in sinks && s != t
    requires AllSinksOk(sinks, resizing) && FiledAt(l, sinks, Some(s))
    ensures var (sinks', ok) := MoveAt(sinks, s, t, l, works);
      StepOk(l, sinks, sinks', resizing, Some(if ok then t else s)) && (!ok ==> sinks' == sinks)
  {
    MoveAtIsRemoveThenAdd(sinks, s, t, l, works);
    var (sinks', ok) := MoveAt(sinks, s, t, l, works);
    if ok {
      var mid := RemoveAt(sinks, s, l);
      RemoveAtOk(sinks, s, l, resizing);
      AddAtOk(mid, t, l, resizing, works);
      OnlyMovesTwice(sinks, mid, sinks', l);
    } else {
      FailedMove(sinks, s, t, l, works);
      NothingMoves(sinks, l);
    }
  }

  lemma FailedMove<S, L>(sinks: map<S, Sink<L>>, s: S, t: S, l: L, works: bool)
    requires s in sinks && t in sinks && !MoveAt(sinks, s, t, l, works).1
    ensures MoveAt(sinks, s, t, l, works).0 == sinks
  {
    var (a, b, ok) := MoveListener(sinks[s], sinks[t], l, works);
    assert a == sinks[s] && b == sinks[t];
    assert sinks[s := a][t := b] == sinks;
  }

  /** What every track method keeps: all sinks in order, its own track filed right, no one else moved. */
  ghost predicate TrackStep<S, L>(t': Track<S>, l: L, sinks: map<S, Sink<L>>, sinks': map<S, Sink<L>>,
                                  resizing: set<S>) {
    StreamKnown(t', sinks') && StepOk(l, sinks, sinks', resizing, Place(t'))
  }

  lemma IdleStep<S, L>(t: Track<S>, t': Track<S>, l: L, sinks: map<S, Sink<L>>, resizing: set<S>)
    requires AllSinksOk(sinks, resizing) && FiledRight(t, l, sinks)
    requires StreamKnown(t', sinks) && Place(t') == Place(t)
    ensures TrackStep(t', l, sinks, sinks, resizing)
  {
    NothingMoves(sinks, l);
  }

  lemma LiveSwitchIs<S, L>(t: Track<S>, l: L, sinks: map<S, Sink<L>>, target: S, works: bool)
    requires target in sinks && StreamKnown(t, sinks)
    requires !t.paused && t.stream.Some? && t.stream.value != target
    ensures var (sinks', ok) := MoveAt(sinks, t.stream.value, target, l, works);
      SetStream(t, l, sinks, target, works)
      == (if ok then Track(false, Some(target)) else t, sinks', if ok then Changed else Failed)
  {
  }

  lemma LiveSwitch<S, L>(t: Track<S>, l: L, sinks: map<S, Sink<L>>, resizing: set<S>, target: S, works: bool)
    requires target in sinks && AllSinksOk(sinks, resizing) && FiledRight(t, l, sinks)
    requires !t.paused && t.stream.Some? && t.stream.value != target
    ensures SwitchOk(t, l, sinks, resizing, target, works)
  {
    hide AllSinksOk, FiledAt, MoveAt, AddAt;
    LiveSwitchIs(t, l, sinks, target, works);
    MoveAtOk(sinks, t.stream.value, target, l, resizing, works);
  }

  lemma FirstStream<S, L>(t: Track<S>, l: L, sinks: map<S, Sink<L>>, resizing: set<S>, target: S, works: bool)
    requires target in sinks && AllSinksOk(sinks, resizing) && FiledRight(t, l, sinks)
    requires !t.paused && t.stream.None?
    ensures SwitchOk(t, l, sinks, resizing, target, works)
  {
    AddAtOk(sinks, target, l, resizing, works);
  }

  ghost predicate SwitchOk<S, L>(t: Track<S>, l: L, sinks: map<S, Sink<L>>, resizing: set<S>, target: S, works: bool)
    requires target in sinks && StreamKnown(t, sinks)
  {
    var (t', sinks', r) := SetStream(t, l, sinks, target, works);
    && TrackStep(t', l, sinks, sinks', resizing)
    && t'.paused == t.paused
    && (if r.Failed? then t' == t && sinks' == sinks && !t.paused else t'.stream == Some(target))
  }

  /** A failed switch leaves the track and every sink as they were. */
  lemma SetStreamKeeps<S, L>(t: Track<S>, l: L, sinks: map<S, Sink<L>>, resizing: set<S>, target: S, works: bool)
    requires target in sinks && AllSinksOk(sinks, resizing) && FiledRight(t, l, sinks)
    ensures SwitchOk(t, l, sinks, resizing, target, works)
  {
    if t.stream == Some(target) || t.paused {
      IdleStep(t, t.(stream := Some(target)), l, sinks, resizing);
    } else if t.stream.Some? {
      LiveSwitch(t, l, sinks, resizing, target, works);
    } else {
      FirstStream(t, l, sinks, resizing, target, works);
    }
  }

  lemma RemoveStreamKeeps<S, L>(t: Track<S>, l: L, sinks: map<S, Sink<L>>, resizing: set<S>)
    requires AllSinksOk(sinks, resizing) && FiledRight(t, l, sinks)
    ensures var (t', sinks') := RemoveStream(t, l, sinks);
      TrackStep(t', l, sinks, sinks', resizing) && t' == Track(t.paused, None)
  {
    if t.stream.None? || t.paused {
      IdleStep(t, t.(stream := None), l, sinks, resizing);
    } else {
      RemoveAtOk(sinks, t.stream.value, l, resizing);
    }
  }

  /** Pausing always succeeds; unpausing may leave the track paused. */
  lemma SetTrackPausedKeeps<S, L>(t: Track<S>, l: L, sinks: map<S, Sink<L>>, resizing: set<S>, paused: bool,
                                  works: bool)
    requires AllSinksOk(sinks, resizing) && FiledRight(t, l, sinks)
    ensures var (t', sinks') := SetTrackPaused(t, l, sinks, paused, works);
      && TrackStep(t', l, sinks, sinks', resizing)
      && t'.stream == t.stream
      && (paused ==> t'.paused)
      && (t'.paused ==> paused || t.paused)
  {
    hide AllSinksOk, FiledAt, AddAt, RemoveAt;
    if t.paused == paused || t.stream.None? {
      IdleStep(t, t.(paused := paused), l, sinks, resizing);
    } else if paused {
      RemoveAtOk(sinks, t.stream.value, l, resizing);
    } else {
      AddAtOk(sinks, t.stream.value, l, resizing, works);
    }
  }

  lemma OthersStayFiled<S, L>(t: Track<S>, l: L, before: map<S, Sink<L>>, after: map<S, Sink<L>>, moved: L)
    requires FiledRight(t, l, before) && OnlyMoves(before, after, moved) && l != moved
    ensures FiledRight(t, l, after)
  {
    forall s | s in after ensures l in Members(after[s]) <==> Place(t) == Some(s) {
      assert l in Members(after[s]) <==> l in Members(after[s]) - {moved};
      assert l in Members(before[s]) <==> l in Members(before[s]) - {moved};
    }
  }
}
