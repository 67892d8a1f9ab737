/** Three runs in which a guest gets to watch although private mode is on. */
module PrivateModeRaces {
  import opened Options
  import opened SinkSpec
  import opened TrackSpec
  import opened PeerSpec
  import opened PrivateMode
  import opened Exposure

  const GUEST: SessionId := 0

  /** A room with one guest, whose peer is number 0, and the calls under way. */
  ghost function Scene(r0: Room, on: bool, peer: Option<Peer<SinkId>>, jobs: map<JobId, Job>): Room {
    Room(on,
         map[GUEST := Session(true, false, true, if peer.Some? then Some(0) else None)],
         if peer.Some? then map[0 := peer.value] else map[],
         jobs, r0.audio, r0.sinks, {})
  }

  /** The room at the start: no calls, no peers, unused sinks, among them k for video. */
  ghost predicate Empty(r0: Room, k: SinkId) {
    && r0.audio in r0.sinks && k in r0.sinks
    && forall s :: s in r0.sinks ==> r0.sinks[s] == NewSink(r0.sinks[s].waitForKf)
  }

  /** A peer that streams nothing yet. */
  ghost function Quiet(r0: Room, paused: bool): Peer<SinkId> {
    Peer(paused, false, false, true, Track(paused, None), Track(true, Some(r0.audio)))
  }

  lemma SceneIsOk(r0: Room, k: SinkId, on: bool, jobs: map<JobId, Job>)
    requires Empty(r0, k)
    ensures Initial(Scene(r0, on, None, map[]))
    ensures JobsOk(jobs, {GUEST}, {0}) ==> forall paused :: MediaOk(Scene(r0, on, Some(Quiet(r0, paused)), jobs))
  {
    forall paused | JobsOk(jobs, {GUEST}, {0}) ensures MediaOk(Scene(r0, on, Some(Quiet(r0, paused)), jobs)) {
      var r := Scene(r0, on, Some(Quiet(r0, paused)), jobs);
      assert r.sessions.Keys == {GUEST} && r.peers.Keys == {0};
      forall s | s in r.sinks ensures Members(r.sinks[s]) == {} {
      }
      assert PeerOk(r.peers[0], VideoOf(0), AudioOf(0), r.sinks);
    }
  }

  /** A step of a call that only looks or fetches. */
  lemma Looks(r0: Room, k: SinkId, on: bool, paused: bool, jobs: map<JobId, Job>, j: JobId, order: seq<SessionId>)
    requires Empty(r0, k) && JobsOk(jobs, {GUEST}, {0}) && j in jobs && !jobs[j].Pausing?
    requires jobs[j].Listing? ==> order == [GUEST]
    ensures var r := Scene(r0, on, Some(Quiet(r0, paused)), jobs);
            MediaOk(r) && Allowed(r, Proceed(j, order, {}))
            && var next := NextJob(r, jobs[j], order);
               Step(r, Proceed(j, order, {}))
               == Scene(r0, on, Some(Quiet(r0, paused)), if next.Some? then jobs[j := next.value] else jobs - {j})
  {
    SceneIsOk(r0, k, on, jobs);
    hide MediaOk, NextJob;
  }

  /** SetPaused on a quiet peer moves no track. */
  lemma Pauses(r0: Room, k: SinkId, on: bool, paused: bool, jobs: map<JobId, Job>, j: JobId)
    requires Empty(r0, k) && JobsOk(jobs, {GUEST}, {0}) && j in jobs && jobs[j].Pausing?
    ensures var r := Scene(r0, on, Some(Quiet(r0, paused)), jobs);
            MediaOk(r) && Allowed(r, Proceed(j, [], {}))
            && Step(r, Proceed(j, [], {}))
               == Scene(r0, on, Some(Quiet(r0, jobs[j].enabled)), jobs[j := Visiting(jobs[j].rest)])
  {
    SceneIsOk(r0, k, on, jobs);
    hide MediaOk;
    var r := Scene(r0, on, Some(Quiet(r0, paused)), jobs);
    var r' := Step(r, Proceed(j, [], {}));
    assert r'.peers == map[0 := Quiet(r0, jobs[j].enabled)];
  }

  lemma Connects(r0: Room, k: SinkId, on: bool, j: JobId)
    requires Empty(r0, k)
    ensures var r, e := Scene(r0, on, None, map[]), CreatePeer(GUEST, 0, j);
            MediaOk(r) && Allowed(r, e)
            && Step(r, e) == Scene(r0, on, Some(Quiet(r0, false)), map[j := Requesting(GUEST, 0)])
  {
    SceneIsOk(r0, k, on, map[]);
    InitialOk(Scene(r0, on, None, map[]));
    hide MediaOk;
  }

  lemma Updates(r0: Room, k: SinkId, on: bool, paused: bool, jobs: map<JobId, Job>, j: JobId)
    requires Empty(r0, k) && JobsOk(jobs, {GUEST}, {0}) && j !in jobs
    ensures var r := Scene(r0, on, Some(Quiet(r0, paused)), jobs);
            && MediaOk(r)
            && Allowed(r, UpdateProfile(GUEST, false, true, j)) && Allowed(r, UpdateSettings(!on, j))
            && Step(r, UpdateProfile(GUEST, false, true, j))
               == Scene(r0, on, Some(Quiet(r0, paused)), jobs[j := Updated(GUEST)])
            && Step(r, UpdateSettings(!on, j)) == Scene(r0, !on, Some(Quiet(r0, paused)), jobs[j := Listing])
  {
    SceneIsOk(r0, k, on, jobs);
    hide MediaOk;
  }

  /** A request to stream k, whose pipeline can be built. */
  function Ask(k: SinkId): Event {
    SetPeerVideo(0, VideoRequest(None, Some(Some(k)), None), false, true, true)
  }

  /** A quiet peer that is not paused starts to stream as soon as a request names a stream. */
  lemma Asks(r0: Room, k: SinkId, jobs: map<JobId, Job>)
    requires Empty(r0, k) && JobsOk(jobs, {GUEST}, {0})
    ensures var r, e := Scene(r0, true, Some(Quiet(r0, false)), jobs), Ask(k);
            && MediaOk(r) && Allowed(r, e) && MediaOk(Step(r, e))
            && Applies(Step(r, e), GUEST) && Watches(Step(r, e), GUEST) && Step(r, e).jobs == jobs
  {
    var r, e := Scene(r0, true, Some(Quiet(r0, false)), jobs), Ask(k);
    SceneIsOk(r0, k, true, jobs);
    hide MediaOk, Private, Joins, PeerStreams;
    StepKeeps(r, e);
    AsksInOrder(r0, k, jobs);
    JoinStreams(r, e, 0);
    PrivateAfter(r, e, GUEST, 0);
    JoinCalls(r, e, 0);
    PrivateWatches(Step(r, e), GUEST, 0);
  }

  lemma PrivateWatches(r: Room, s: SessionId, p: PeerId)
    requires MediaOk(r) && Private(r, s, p) && PeerStreams(r.peers[p])
    ensures Applies(r, s) && Watches(r, s)
  {
    WatchesIffStreams(r, s, p);
  }

  lemma AsksInOrder(r0: Room, k: SinkId, jobs: map<JobId, Job>)
    requires Empty(r0, k)
    ensures var r, e := Scene(r0, true, Some(Quiet(r0, false)), jobs), Ask(k);
            Private(r, GUEST, 0) && Joins(r, e, 0)
  {
  }

  ghost predicate EndsIn(states: seq<Room>, events: seq<Event>, first: Room, last: Room) {
    IsRun(states, events) && states[0] == first && states[|states| - 1] == last
  }

  lemma Begin(r: Room) returns (states: seq<Room>, events: seq<Event>)
    requires Initial(r)
    ensures EndsIn(states, events, r, r)
  {
    states, events := [r], [];
  }

  lemma Then(states: seq<Room>, events: seq<Event>, first: Room, last: Room, e: Event, next: Room)
    returns (states': seq<Room>, events': seq<Event>)
    requires EndsIn(states, events, first, last) && MediaOk(last) && Allowed(last, e) && Step(last, e) == next
    ensures EndsIn(states', events', first, next)
  {
    hide MediaOk, Allowed, Step;
    states', events' := states + [next], events + [e];
    assert Follows(last, e, next);
    forall i | 0 <= i < |events'| ensures Follows(states'[i], events'[i], states'[i + 1]) {
      if i < |events| {
        assert Follows(states[i], events[i], states[i + 1]);
      }
    }
  }

  /** The last step of each of the runs. */
  lemma ThenAsks(r0: Room, k: SinkId, states: seq<Room>, events: seq<Event>, first: Room, jobs: map<JobId, Job>)
    returns (states': seq<Room>, events': seq<Event>, last: Room)
    requires Empty(r0, k) && JobsOk(jobs, {GUEST}, {0})
    requires EndsIn(states, events, first, Scene(r0, true, Some(Quiet(r0, false)), jobs))
    ensures EndsIn(states', events', first, last)
    ensures Applies(last, GUEST) && Watches(last, GUEST) && last.jobs == jobs
  {
    hide MediaOk, Allowed, Step, Scene, Quiet, Applies, Watches, EndsIn;
    Asks(r0, k, jobs);
    var r, e := Scene(r0, true, Some(Quiet(r0, false)), jobs), Ask(k);
    last := Step(r, e);
    states', events' := Then(states, events, first, r, e, last);
  }

  /** A request that comes before the connection request has looked at the mode is not held back. */
  lemma EarlyRequestExposes(r0: Room, k: SinkId) returns (states: seq<Room>, events: seq<Event>, last: Room)
    requires Empty(r0, k)
    ensures EndsIn(states, events, Scene(r0, true, None, map[]), last)
    ensures Applies(last, GUEST) && Watches(last, GUEST)
  {
    hide MediaOk, Allowed, Step, Scene, Quiet, Applies, Watches, EndsIn;
    var first, jobs := Scene(r0, true, None, map[]), map[0 := Requesting(GUEST, 0)];
    SceneIsOk(r0, k, true, map[]);
    Connects(r0, k, true, 0);
    states, events := Begin(first);
    states, events := Then(states, events, first, first, CreatePeer(GUEST, 0, 0),
                           Scene(r0, true, Some(Quiet(r0, false)), jobs));
    states, events, last := ThenAsks(r0, k, states, events, first, jobs);
  }

  lemma Fails(r0: Room, k: SinkId, on: bool, j: JobId)
    requires Empty(r0, k)
    ensures var r, e := Scene(r0, on, Some(Quiet(r0, false)), map[j := Requesting(GUEST, 0)]), RequestFails(j);
            MediaOk(r) && Allowed(r, e) && Step(r, e) == Scene(r0, on, Some(Quiet(r0, false)), map[])
  {
    var jobs := map[j := Requesting(GUEST, 0)];
    assert jobs - {j} == map[];
    SceneIsOk(r0, k, on, jobs);
    hide MediaOk;
  }

  /** The offer fails after the peer was set, so that the request never looks at the mode; a later video
      request of the same guest is not held back, and nothing is under way any more. */
  lemma FailedOfferSlips(r0: Room, k: SinkId) returns (states: seq<Room>, events: seq<Event>, last: Room)
    requires Empty(r0, k)
    ensures EndsIn(states, events, Scene(r0, true, None, map[]), last)
    ensures Applies(last, GUEST) && Watches(last, GUEST) && last.jobs == map[]
  {
    hide MediaOk, Allowed, Step, Scene, Quiet, Applies, Watches, EndsIn;
    var first, q, jobs := Scene(r0, true, None, map[]), Some(Quiet(r0, false)), map[0 := Requesting(GUEST, 0)];
    SceneIsOk(r0, k, true, map[]);
    Connects(r0, k, true, 0);
    Fails(r0, k, true, 0);
    states, events := Begin(first);
    states, events := Then(states, events, first, first, CreatePeer(GUEST, 0, 0), Scene(r0, true, q, jobs));
    states, events := Then(states, events, first, Scene(r0, true, q, jobs), RequestFails(0),
                           Scene(r0, true, q, map[]));
    states, events, last := ThenAsks(r0, k, states, events, first, map[]);
  }

  /** A step that only looks or fetches, after a run. */
  lemma ThenLooks(r0: Room, k: SinkId, states: seq<Room>, events: seq<Event>, first: Room, on: bool, paused: bool,
                  jobs: map<JobId, Job>, j: JobId, order: seq<SessionId>, jobs': map<JobId, Job>)
    returns (states': seq<Room>, events': seq<Event>)
    requires Empty(r0, k) && JobsOk(jobs, {GUEST}, {0}) && j in jobs && !jobs[j].Pausing?
    requires jobs[j].Listing? ==> order == [GUEST]
    requires EndsIn(states, events, first, Scene(r0, on, Some(Quiet(r0, paused)), jobs))
    requires MediaOk(Scene(r0, on, Some(Quiet(r0, paused)), jobs))
    requires var next := NextJob(Scene(r0, on, Some(Quiet(r0, paused)), jobs), jobs[j], order);
             jobs' == if next.Some? then jobs[j := next.value] else jobs - {j}
    ensures EndsIn(states', events', first, Scene(r0, on, Some(Quiet(r0, paused)), jobs'))
  {
    hide MediaOk, Allowed, Step, Scene, Quiet, EndsIn, NextJob;
    Looks(r0, k, on, paused, jobs, j, order);
    states', events' := Then(states, events, first, Scene(r0, on, Some(Quiet(r0, paused)), jobs), Proceed(j, order, {}),
                             Scene(r0, on, Some(Quiet(r0, paused)), jobs'));
  }

  const STALE := Pausing(0, false, [])

  /** What a call about the guest does next. */
  lemma NextInScene(r0: Room, on: bool, paused: bool, jobs: map<JobId, Job>, enabled: bool)
    ensures var r := Scene(r0, on, Some(Quiet(r0, paused)), jobs);
            && r.sessions.Keys == {GUEST} && r.peers.Keys == {0}
            && NextJob(r, Listing, [GUEST]) == Some(Visiting([GUEST]))
            && NextJob(r, Visiting([]), []) == None
            && NextJob(r, Visiting([GUEST]), []) == Some(LookedAt(GUEST, on, []))
            && NextJob(r, LookedAt(GUEST, enabled, []), []) == Some(Pausing(0, enabled, []))
            && NextJob(r, Updated(GUEST), []) == Some(Holding(GUEST, 0))
            && NextJob(r, Holding(GUEST, 0), []) == Some(Pausing(0, on, []))
            && (!on ==> NextJob(r, Requesting(GUEST, 0), []) == None)
  {
    assert [GUEST][1..] == [];
  }

  /** The guest connects, the mode being off, and a profile update looks at that. */
  lemma LooksWhileOff(r0: Room, k: SinkId, first: Room) returns (states: seq<Room>, events: seq<Event>)
    requires Empty(r0, k) && first == Scene(r0, false, None, map[])
    ensures EndsIn(states, events, first, Scene(r0, false, Some(Quiet(r0, false)), map[1 := STALE]))
  {
    hide MediaOk, Allowed, Step, EndsIn, Scene, Quiet, NextJob;
    NextInScene(r0, false, false, map[0 := Requesting(GUEST, 0)], false);
    NextInScene(r0, false, false, map[1 := Updated(GUEST)], false);
    NextInScene(r0, false, false, map[1 := Holding(GUEST, 0)], false);
    SceneIsOk(r0, k, false, map[]);
    SceneIsOk(r0, k, false, map[0 := Requesting(GUEST, 0)]);
    SceneIsOk(r0, k, false, map[1 := Updated(GUEST)]);
    SceneIsOk(r0, k, false, map[1 := Holding(GUEST, 0)]);
    Connects(r0, k, false, 0);
    Updates(r0, k, false, false, map[], 1);
    var q := Some(Quiet(r0, false));
    states, events := Begin(first);
    states, events := Then(states, events, first, first, CreatePeer(GUEST, 0, 0),
                           Scene(r0, false, q, map[0 := Requesting(GUEST, 0)]));
    states, events := ThenLooks(r0, k, states, events, first, false, false, map[0 := Requesting(GUEST, 0)], 0, [],
                                map[]);
    states, events := Then(states, events, first, Scene(r0, false, q, map[]), UpdateProfile(GUEST, false, true, 1),
                           Scene(r0, false, q, map[1 := Updated(GUEST)]));
    states, events := ThenLooks(r0, k, states, events, first, false, false, map[1 := Updated(GUEST)], 1, [],
                                map[1 := Holding(GUEST, 0)]);
    states, events := ThenLooks(r0, k, states, events, first, false, false, map[1 := Holding(GUEST, 0)], 1, [],
                                map[1 := STALE]);
  }

  /** The profile update waits, and the settings change is at `job`. */
  ghost function Both(job: Job): map<JobId, Job> {
    map[1 := STALE, 2 := job]
  }

  lemma BothThen(job: Job, next: Job)
    requires JobOk(job, {GUEST}, {0})
    ensures 2 in Both(job) && Both(job)[2] == job && JobsOk(Both(job), {GUEST}, {0})
    ensures Both(job)[2 := next] == Both(next) && Both(job) - {2} == map[1 := STALE]
            && map[1 := STALE][2 := next] == Both(next)
  {
  }

  /** A step of the loop that only looks or fetches. */
  lemma LoopLooks(r0: Room, k: SinkId, states: seq<Room>, events: seq<Event>, first: Room, job: Job,
                  order: seq<SessionId>, next: Job)
    returns (states': seq<Room>, events': seq<Event>)
    requires Empty(r0, k) && JobOk(job, {GUEST}, {0}) && !job.Pausing? && (job.Listing? ==> order == [GUEST])
    requires EndsIn(states, events, first, Scene(r0, true, Some(Quiet(r0, false)), Both(job)))
    requires forall jobs :: NextJob(Scene(r0, true, Some(Quiet(r0, false)), jobs), job, order) == Some(next)
    ensures EndsIn(states', events', first, Scene(r0, true, Some(Quiet(r0, false)), Both(next)))
  {
    hide MediaOk, EndsIn, Scene, Quiet, NextJob, Both;
    SceneIsOk(r0, k, true, Both(job));
    BothThen(job, next);
    states', events' := ThenLooks(r0, k, states, events, first, true, false, Both(job), 2, order, Both(next));
  }

  lemma LoopJobs(r0: Room)
    ensures forall jobs :: var r := Scene(r0, true, Some(Quiet(r0, false)), jobs);
              && r.sessions.Keys == {GUEST} && r.peers.Keys == {0}
              && NextJob(r, Listing, [GUEST]) == Some(Visiting([GUEST]))
              && NextJob(r, Visiting([GUEST]), []) == Some(LookedAt(GUEST, true, []))
              && NextJob(r, LookedAt(GUEST, true, []), []) == Some(Pausing(0, true, []))
  {
    forall jobs ensures var r := Scene(r0, true, Some(Quiet(r0, false)), jobs);
              && r.sessions.Keys == {GUEST} && r.peers.Keys == {0}
              && NextJob(r, Listing, [GUEST]) == Some(Visiting([GUEST]))
              && NextJob(r, Visiting([GUEST]), []) == Some(LookedAt(GUEST, true, []))
              && NextJob(r, LookedAt(GUEST, true, []), []) == Some(Pausing(0, true, [])) {
      NextInScene(r0, true, false, jobs, true);
    }
  }

  /** Private mode is turned on, and the loop looks at the guest. */
  lemma LooksWhileOn(r0: Room, k: SinkId, states: seq<Room>, events: seq<Event>, first: Room)
    returns (states': seq<Room>, events': seq<Event>)
    requires Empty(r0, k) && EndsIn(states, events, first, Scene(r0, false, Some(Quiet(r0, false)), map[1 := STALE]))
    ensures EndsIn(states', events', first, Scene(r0, true, Some(Quiet(r0, false)), Both(Pausing(0, true, []))))
  {
    hide MediaOk, Allowed, Step, EndsIn, Scene, Quiet, NextJob, Both;
    var q := Some(Quiet(r0, false));
    Updates(r0, k, false, false, map[1 := STALE], 2);
    BothThen(Listing, Listing);
    LoopJobs(r0);
    states', events' := Then(states, events, first, Scene(r0, false, q, map[1 := STALE]), UpdateSettings(true, 2),
                             Scene(r0, true, q, Both(Listing)));
    states', events' := LoopLooks(r0, k, states', events', first, Listing, [GUEST], Visiting([GUEST]));
    states', events' := LoopLooks(r0, k, states', events', first, Visiting([GUEST]), [], LookedAt(GUEST, true, []));
    states', events' := LoopLooks(r0, k, states', events', first, LookedAt(GUEST, true, []), [], Pausing(0, true, []));
  }

  /** The loop pauses the peer and ends. */
  lemma LoopEnds(r0: Room, k: SinkId, states: seq<Room>, events: seq<Event>, first: Room)
    returns (states': seq<Room>, events': seq<Event>)
    requires Empty(r0, k)
             && EndsIn(states, events, first, Scene(r0, true, Some(Quiet(r0, false)), Both(Pausing(0, true, []))))
    ensures EndsIn(states', events', first, Scene(r0, true, Some(Quiet(r0, true)), map[1 := STALE]))
  {
    hide MediaOk, Allowed, Step, EndsIn, Scene, Quiet, NextJob, Both;
    var q, o, pause := Some(Quiet(r0, false)), Some(Quiet(r0, true)), Pausing(0, true, []);
    BothThen(pause, Visiting([]));
    BothThen(Visiting([]), Visiting([]));
    Pauses(r0, k, true, false, Both(pause), 2);
    SceneIsOk(r0, k, true, Both(Visiting([])));
    NextInScene(r0, true, true, Both(Visiting([])), true);
    states', events' := Then(states, events, first, Scene(r0, true, q, Both(pause)), Proceed(2, [], {}),
                             Scene(r0, true, o, Both(Visiting([]))));
    states', events' := ThenLooks(r0, k, states', events', first, true, true, Both(Visiting([])), 2, [],
                                  map[1 := STALE]);
  }

  /** Then the profile update unpauses it and ends. */
  lemma UnpausesLast(r0: Room, k: SinkId, states: seq<Room>, events: seq<Event>, first: Room)
    returns (states': seq<Room>, events': seq<Event>)
    requires Empty(r0, k) && EndsIn(states, events, first, Scene(r0, true, Some(Quiet(r0, true)), map[1 := STALE]))
    ensures EndsIn(states', events', first, Scene(r0, true, Some(Quiet(r0, false)), map[]))
  {
    hide MediaOk, Allowed, Step, EndsIn, Scene, Quiet, NextJob;
    var q, o, done := Some(Quiet(r0, false)), Some(Quiet(r0, true)), map[1 := Visiting([])];
    Pauses(r0, k, true, true, map[1 := STALE], 1);
    SceneIsOk(r0, k, true, done);
    NextInScene(r0, true, false, done, true);
    assert map[1 := STALE][1 := Visiting([])] == done;
    states', events' := Then(states, events, first, Scene(r0, true, o, map[1 := STALE]), Proceed(1, [], {}),
                             Scene(r0, true, q, done));
    states', events' := ThenLooks(r0, k, states', events', first, true, false, done, 1, [], map[]);
  }

  /** A profile update has looked while the mode was off; the settings change has come and gone; then the
      profile update unpauses the peer, and the guest can watch for good: nothing is under way any more. */
  lemma StaleLookSlips(r0: Room, k: SinkId) returns (states: seq<Room>, events: seq<Event>, last: Room)
    requires Empty(r0, k)
    ensures EndsIn(states, events, Scene(r0, false, None, map[]), last)
    ensures Applies(last, GUEST) && Watches(last, GUEST) && last.jobs == map[]
  {
    hide MediaOk, Allowed, Step, Scene, Quiet, Applies, Watches, EndsIn, Both;
    var first := Scene(r0, false, None, map[]);
    states, events := LooksWhileOff(r0, k, first);
    states, events := LooksWhileOn(r0, k, states, events, first);
    states, events := LoopEnds(r0, k, states, events, first);
    states, events := UnpausesLast(r0, k, states, events, first);
    states, events, last := ThenAsks(r0, k, states, events, first, map[]);
  }
}
