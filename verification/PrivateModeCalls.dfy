/** What the calls of PrivateMode come to when nothing comes in between: what ManagerSpec has others do. */
module PrivateModeCalls {
  import opened Options
  import opened SinkSpec
  import opened TrackSpec
  import opened PeerSpec
  import opened PrivateMode

  /** Steps of call j, one after another, from the first room to the last. */
  ghost predicate Runs(rooms: seq<Room>, events: seq<Event>, j: JobId, first: Room, last: Room) {
    && |rooms| == |events| + 1 && rooms[0] == first && rooms[|rooms| - 1] == last
    && forall i :: 0 <= i < |events| ==>
         events[i].Proceed? && events[i].job == j && Follows(rooms[i], events[i], rooms[i + 1])
  }

  lemma RunsOn(rooms: seq<Room>, events: seq<Event>, j: JobId, first: Room, mid: Room, e: Event, last: Room)
    returns (rooms': seq<Room>, events': seq<Event>)
    requires Runs(rooms, events, j, mid, last) && e.Proceed? && e.job == j && Follows(first, e, mid)
    ensures Runs(rooms', events', j, first, last)
  {
    hide Follows;
    rooms', events' := [first] + rooms, [e] + events;
    forall i | 0 <= i < |events'|
      ensures events'[i].Proceed? && events'[i].job == j && Follows(rooms'[i], events'[i], rooms'[i + 1])
    {
      if i > 0 { assert Follows(rooms[i - 1], events[i - 1], rooms[i - 1 + 1]); }
    }
  }

  /** The current peers of the sessions are paused just if private mode applies to these. */
  ghost predicate EachSeen(r: Room, r': Room, ids: seq<SessionId>)
    requires r'.peers.Keys == r.peers.Keys
  {
    forall s :: s in ids && s in r.sessions && r.sessions[s].peer.Some? ==>
      r.sessions[s].peer.value in r.peers
      && r'.peers[r.sessions[s].peer.value].paused == PrivateModeEnabled(r, s)
  }

  /** All other peers are as they were. */
  ghost predicate OthersLeft(r: Room, r': Room, ids: seq<SessionId>)
    requires r'.peers.Keys == r.peers.Keys
  {
    forall p :: p in r.peers && (forall s :: s in ids && s in r.sessions ==> r.sessions[s].peer != Some(p)) ==>
      r'.peers[p] == r.peers[p]
  }

  /** Exactly the current peers of the given sessions have been seen to, and nothing else has changed about
      sessions, peers, mode and calls, but that call j is over. */
  ghost predicate SeenToAll(r: Room, r': Room, j: JobId, ids: seq<SessionId>) {
    && r'.sessions == r.sessions && r'.privateMode == r.privateMode && r'.peers.Keys == r.peers.Keys
    && r'.jobs == r.jobs - {j} && MediaOk(r')
    && EachSeen(r, r', ids) && OthersLeft(r, r', ids)
  }

  lemma Ends(r: Room, j: JobId) returns (rooms: seq<Room>, events: seq<Event>)
    requires MediaOk(r) && j in r.jobs && r.jobs[j] == Visiting([])
    ensures Runs(rooms, events, j, r, r.(jobs := r.jobs - {j})) && SeenToAll(r, r.(jobs := r.jobs - {j}), j, [])
  {
    hide MediaOk;
    var e := Proceed(j, [], {});
    StepKeeps(r, e);
    JobsAreOk(r);
    rooms, events := [r, r.(jobs := r.jobs - {j})], [e];
    assert Step(r, e) == rooms[1];
  }

  /** Look and fetch: the next session has no peer, or comes up for SetPaused. */
  lemma Looks(r: Room, j: JobId, rest: seq<SessionId>)
    requires MediaOk(r) && j in r.jobs && r.jobs[j] == Visiting(rest) && rest != []
    ensures rest[0] in r.sessions
    ensures var s := rest[0]; var b := PrivateModeEnabled(r, s);
            var r1 := r.(jobs := r.jobs[j := LookedAt(s, b, rest[1..])]);
            var next := if r.sessions[s].peer.None? then Visiting(rest[1..])
                        else Pausing(r.sessions[s].peer.value, b, rest[1..]);
      && Follows(r, Proceed(j, [], {}), r1)
      && Follows(r1, Proceed(j, [], {}), r.(jobs := r.jobs[j := next])) && MediaOk(r.(jobs := r.jobs[j := next]))
  {
    hide MediaOk;
    JobsAreOk(r);
    var e, s := Proceed(j, [], {}), rest[0];
    var r1 := r.(jobs := r.jobs[j := LookedAt(s, PrivateModeEnabled(r, s), rest[1..])]);
    StepKeeps(r, e);
    assert Step(r, e) == r1;
    JobsAreOk(r1);
    StepKeeps(r1, e);
    assert Step(r1, e).jobs[j] == (if r.sessions[s].peer.None? then Visiting(rest[1..])
                                   else Pausing(r.sessions[s].peer.value, PrivateModeEnabled(r, s), rest[1..]));
    assert Step(r1, e) == r.(jobs := r.jobs[j := Step(r1, e).jobs[j]]);
  }

  /** The one peer that SetPaused is called on. */
  ghost predicate OnePaused(r: Room, r2: Room, j: JobId, p: PeerId, b: bool, rest: seq<SessionId>) {
    && r2.sessions == r.sessions && r2.privateMode == r.privateMode && r2.peers.Keys == r.peers.Keys
    && j in r2.jobs && r2.jobs[j] == Visiting(rest) && r2.jobs - {j} == r.jobs - {j} && MediaOk(r2)
    && p in r.peers && r2.peers[p].paused == b
    && forall q :: q in r.peers && q != p ==> r2.peers[q] == r.peers[q]
  }

  lemma Pauses(r: Room, j: JobId, p: PeerId, b: bool, rest: seq<SessionId>, works: set<TrackRef>)
    requires MediaOk(r) && j in r.jobs && r.jobs[j] == Pausing(p, b, rest)
    ensures Allowed(r, Proceed(j, [], works)) && OnePaused(r, Step(r, Proceed(j, [], works)), j, p, b, rest)
  {
    hide MediaOk, PausePeer;
    JobsAreOk(r);
    StepKeeps(r, Proceed(j, [], works));
    PausePeerKeeps(r, p, b, works);
  }

  lemma NoneSeenTo(r: Room, r': Room, j: JobId, s: SessionId, rest: seq<SessionId>)
    requires s in r.sessions && r.sessions[s].peer.None?
    requires SeenToAll(r.(jobs := r'.jobs[j := Visiting(rest)]), r', j, rest) && r'.jobs == r.jobs - {j}
    ensures SeenToAll(r, r', j, [s] + rest)
  {
    hide MediaOk;
    forall k ensures k in [s] + rest <==> k == s || k in rest {
    }
  }

  lemma DistinctPeers(r: Room)
    requires MediaOk(r)
    ensures forall s :: s in r.sessions && r.sessions[s].peer.Some? ==> r.sessions[s].peer.value in r.peers
    ensures forall s, q | s in r.sessions && q in r.sessions && r.sessions[s].peer.Some? && s != q ::
              r.sessions[s].peer != r.sessions[q].peer
  {
  }

  /** The peer of s keeps the pause it has got, also if s comes up again. */
  lemma PeerIsSeenTo(r: Room, r2: Room, r': Room, j: JobId, s: SessionId, p: PeerId, rest: seq<SessionId>)
    requires MediaOk(r) && s in r.sessions && r.sessions[s].peer == Some(p)
    requires OnePaused(r, r2, j, p, PrivateModeEnabled(r, s), rest) && SeenToAll(r2, r', j, rest)
    ensures p in r.peers && r'.peers.Keys == r.peers.Keys && r'.peers[p].paused == PrivateModeEnabled(r, s)
  {
    hide MediaOk;
    DistinctPeers(r);
    if s !in rest {
      assert forall q :: q in rest && q in r2.sessions ==> r2.sessions[q].peer != Some(p);
      assert r'.peers[p] == r2.peers[p];
    }
  }

  lemma SeenOneMore(r: Room, r2: Room, r': Room, s: SessionId, rest: seq<SessionId>)
    requires r2.sessions == r.sessions && r2.privateMode == r.privateMode && r2.peers.Keys == r.peers.Keys
    requires r'.peers.Keys == r2.peers.Keys && EachSeen(r2, r', rest)
    requires s in r.sessions && r.sessions[s].peer.Some? && r.sessions[s].peer.value in r.peers
             && r'.peers[r.sessions[s].peer.value].paused == PrivateModeEnabled(r, s)
    ensures EachSeen(r, r', [s] + rest)
  {
  }

  lemma OtherIsLeft(r: Room, r2: Room, r': Room, j: JobId, s: SessionId, p: PeerId, rest: seq<SessionId>, q: PeerId)
    requires s in r.sessions && r.sessions[s].peer == Some(p) && q in r.peers
    requires OnePaused(r, r2, j, p, PrivateModeEnabled(r, s), rest) && SeenToAll(r2, r', j, rest)
    requires q != p && forall k :: k in rest && k in r.sessions ==> r.sessions[k].peer != Some(q)
    ensures q in r'.peers && r'.peers[q] == r.peers[q]
  {
    hide MediaOk;
    assert r2.peers[q] == r.peers[q];
  }

  lemma EachSeenToo(r: Room, r2: Room, r': Room, j: JobId, s: SessionId, p: PeerId, rest: seq<SessionId>)
    requires MediaOk(r) && s in r.sessions && r.sessions[s].peer == Some(p)
    requires OnePaused(r, r2, j, p, PrivateModeEnabled(r, s), rest) && SeenToAll(r2, r', j, rest)
    ensures r'.peers.Keys == r.peers.Keys && EachSeen(r, r', [s] + rest)
  {
    SeenToFrame(r2, r', j, rest);
    PausedFrame(r, r2, j, p, PrivateModeEnabled(r, s), rest);
    PeerIsSeenTo(r, r2, r', j, s, p, rest);
    hide MediaOk, OnePaused, EachSeen, OthersLeft;
    SeenOneMore(r, r2, r', s, rest);
  }

  lemma OthersLeftToo(r: Room, r2: Room, r': Room, j: JobId, s: SessionId, p: PeerId, rest: seq<SessionId>)
    requires MediaOk(r) && s in r.sessions && r.sessions[s].peer == Some(p)
    requires OnePaused(r, r2, j, p, PrivateModeEnabled(r, s), rest) && SeenToAll(r2, r', j, rest)
    ensures r'.peers.Keys == r.peers.Keys && OthersLeft(r, r', [s] + rest)
  {
    SeenToFrame(r2, r', j, rest);
    PausedFrame(r, r2, j, p, PrivateModeEnabled(r, s), rest);
    hide MediaOk, OnePaused, SeenToAll;
    forall q | q in r.peers && forall k :: k in [s] + rest && k in r.sessions ==> r.sessions[k].peer != Some(q)
      ensures r'.peers[q] == r.peers[q]
    {
      assert s in [s] + rest && forall k :: k in rest ==> k in [s] + rest;
      OtherIsLeft(r, r2, r', j, s, p, rest, q);
    }
  }

  lemma OneSeenTo(r: Room, r2: Room, r': Room, j: JobId, s: SessionId, p: PeerId, rest: seq<SessionId>)
    requires MediaOk(r) && s in r.sessions && r.sessions[s].peer == Some(p)
    requires OnePaused(r, r2, j, p, PrivateModeEnabled(r, s), rest) && SeenToAll(r2, r', j, rest)
    ensures SeenToAll(r, r', j, [s] + rest)
  {
    hide MediaOk, OnePaused, EachSeen, OthersLeft;
    EachSeenToo(r, r2, r', j, s, p, rest);
    OthersLeftToo(r, r2, r', j, s, p, rest);
    PausedFrame(r, r2, j, p, PrivateModeEnabled(r, s), rest);
  }

  lemma SeenToFrame(r: Room, r': Room, j: JobId, ids: seq<SessionId>)
    requires SeenToAll(r, r', j, ids)
    ensures r'.sessions == r.sessions && r'.privateMode == r.privateMode && r'.peers.Keys == r.peers.Keys
    ensures r'.jobs == r.jobs - {j} && MediaOk(r')
  {
    hide MediaOk;
  }

  lemma PausedFrame(r: Room, r2: Room, j: JobId, p: PeerId, b: bool, rest: seq<SessionId>)
    requires OnePaused(r, r2, j, p, b, rest)
    ensures r2.sessions == r.sessions && r2.privateMode == r.privateMode && r2.peers.Keys == r.peers.Keys
    ensures r2.jobs - {j} == r.jobs - {j}
  {
    hide MediaOk;
  }

  /** Left alone, the loop of a settings change comes to its end, whichever pipelines work, with the peer of
      every session it was given paused exactly if private mode applies to that. */
  lemma {:induction false} LoopFinishes(r: Room, j: JobId, rest: seq<SessionId>, works: set<TrackRef>)
    returns (rooms: seq<Room>, events: seq<Event>, r': Room)
    requires MediaOk(r) && j in r.jobs && r.jobs[j] == Visiting(rest)
    ensures Runs(rooms, events, j, r, r') && SeenToAll(r, r', j, rest)
    decreases |rest|
  {
    hide MediaOk, SeenToAll, Runs, Follows, OnePaused;
    if rest == [] {
      rooms, events := Ends(r, j);
      r' := r.(jobs := r.jobs - {j});
      return;
    }
    Looks(r, j, rest);
    var s := rest[0];
    var b := PrivateModeEnabled(r, s);
    var r1 := r.(jobs := r.jobs[j := LookedAt(s, b, rest[1..])]);
    assert rest == [s] + rest[1..];
    if r.sessions[s].peer.None? {
      var r2 := r.(jobs := r.jobs[j := Visiting(rest[1..])]);
      rooms, events, r' := LoopFinishes(r2, j, rest[1..], works);
      rooms, events := RunsOn(rooms, events, j, r1, r2, Proceed(j, [], {}), r');
      rooms, events := RunsOn(rooms, events, j, r, r1, Proceed(j, [], {}), r');
      SeenFrom(r, r2, r', j, rest[1..]);
      NoneSeenTo(r, r', j, s, rest[1..]);
    } else {
      var p := r.sessions[s].peer.value;
      var r2 := r.(jobs := r.jobs[j := Pausing(p, b, rest[1..])]);
      Pauses(r2, j, p, b, rest[1..], works);
      var e := Proceed(j, [], works);
      var r3 := Step(r2, e);
      StepKeeps(r2, e);
      PausedRoom(r2, r3, j, p, b, rest[1..]);
      rooms, events, r' := LoopFinishes(r3, j, rest[1..], works);
      IsFollowed(r2, e);
      rooms, events := RunsOn(rooms, events, j, r2, r3, e, r');
      rooms, events := RunsOn(rooms, events, j, r1, r2, Proceed(j, [], {}), r');
      rooms, events := RunsOn(rooms, events, j, r, r1, Proceed(j, [], {}), r');
      PausedFrom(r, r2, r3, j, p, b, rest[1..]);
      OneSeenTo(r, r3, r', j, s, p, rest[1..]);
    }
  }

  lemma IsFollowed(r: Room, e: Event)
    requires MediaOk(r) && Allowed(r, e)
    ensures Follows(r, e, Step(r, e))
  {
    hide MediaOk, Allowed, Step;
  }

  lemma PausedRoom(r: Room, r2: Room, j: JobId, p: PeerId, b: bool, rest: seq<SessionId>)
    requires OnePaused(r, r2, j, p, b, rest)
    ensures j in r2.jobs && r2.jobs[j] == Visiting(rest)
  {
  }

  /** What was in hand before does not matter. */
  lemma PausedFrom(r: Room, r2: Room, r3: Room, j: JobId, p: PeerId, b: bool, rest: seq<SessionId>)
    requires r2 == r.(jobs := r2.jobs) && r2.jobs - {j} == r.jobs - {j} && OnePaused(r2, r3, j, p, b, rest)
    ensures OnePaused(r, r3, j, p, b, rest)
  {
    hide MediaOk;
  }

  lemma SeenFrom(r: Room, r2: Room, r': Room, j: JobId, rest: seq<SessionId>)
    requires r2 == r.(jobs := r.jobs[j := Visiting(rest)]) && SeenToAll(r2, r', j, rest)
    ensures r'.jobs == r.jobs - {j} && SeenToAll(r.(jobs := r'.jobs[j := Visiting(rest)]), r', j, rest)
  {
    hide MediaOk;
  }

  lemma Begins(r: Room, on: bool, j: JobId, order: seq<SessionId>) returns (r1: Room, r2: Room)
    requires MediaOk(r) && j !in r.jobs && on != r.privateMode && ListsFiled(r, order)
    ensures r1 == Step(r, UpdateSettings(on, j)) && Follows(r1, Proceed(j, order, {}), r2)
    ensures r2 == r.(privateMode := on, jobs := r.jobs[j := Visiting(order)]) && MediaOk(r2)
  {
    hide MediaOk;
    r1 := Step(r, UpdateSettings(on, j));
    r2 := r.(privateMode := on, jobs := r.jobs[j := Visiting(order)]);
    var e := Proceed(j, order, {});
    StepKeeps(r, UpdateSettings(on, j));
    JobsAreOk(r1);
    StepKeeps(r1, e);
    assert Step(r1, e) == r2;
  }

  /** So a settings change that turns private mode on or off, left alone, leaves exactly the current peers of
      the filed sessions paused or unpaused as private mode calls for, as those that
      ManagerEffects.SettingsPauseEverybodyOnce says are ordered, and changes no other peer. */
  lemma SettingsTakeEffect(r: Room, on: bool, j: JobId, order: seq<SessionId>, works: set<TrackRef>)
    returns (rooms: seq<Room>, events: seq<Event>, r': Room)
    requires MediaOk(r) && j !in r.jobs && on != r.privateMode && ListsFiled(r, order)
    ensures MediaOk(Step(r, UpdateSettings(on, j))) && Runs(rooms, events, j, Step(r, UpdateSettings(on, j)), r')
    ensures r'.privateMode == on && r'.sessions == r.sessions && r'.jobs == r.jobs && r'.peers.Keys == r.peers.Keys
    ensures forall s, p :: Current(r, s, p) ==> r'.peers[p].paused == (on && !r.sessions[s].isAdmin)
    ensures forall p :: p in r.peers && (forall s :: !Current(r, s, p)) ==> r'.peers[p] == r.peers[p]
  {
    hide MediaOk, Runs, Follows, ListsFiled, SeenToAll, Current, Step;
    StepKeeps(r, UpdateSettings(on, j));
    var e := Proceed(j, order, {});
    var r1, r2 := Begins(r, on, j, order);
    rooms, events, r' := LoopFinishes(r2, j, order, works);
    rooms, events := RunsOn(rooms, events, j, r1, r2, e, r');
    SettingsSeenTo(r, r2, on, j, order, r');
  }

  lemma SettingsSeenTo(r: Room, r2: Room, on: bool, j: JobId, order: seq<SessionId>, r': Room)
    requires MediaOk(r) && j !in r.jobs && ListsFiled(r, order)
    requires r2 == r.(privateMode := on, jobs := r.jobs[j := Visiting(order)]) && SeenToAll(r2, r', j, order)
    ensures r'.privateMode == on && r'.sessions == r.sessions && r'.jobs == r.jobs && r'.peers.Keys == r.peers.Keys
    ensures forall s, p :: Current(r, s, p) ==> r'.peers[p].paused == (on && !r.sessions[s].isAdmin)
    ensures forall p :: p in r.peers && (forall s :: !Current(r, s, p)) ==> r'.peers[p] == r.peers[p]
  {
    hide MediaOk;
    DistinctPeers(r);
    assert r2.jobs - {j} == r.jobs;
    forall p | p in r.peers && forall s :: !Current(r, s, p) ensures r'.peers[p] == r.peers[p] {
      forall s | s in order && s in r2.sessions ensures r2.sessions[s].peer != Some(p) {
        assert !Current(r, s, p);
      }
    }
  }
}
