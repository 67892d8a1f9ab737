/** Sessions, their peers, the peers' tracks and the sinks, as one machine: whoever may not watch
    while private mode is on is registered at no sink. Every call of a mutex-guarded method is one
    step. What a call made without such a guard goes through is a job of several steps: a connection
    request, the loop of a settings change and the end of a profile update each look at private mode
    and pause a peer later, and anything may come in between. */
module PrivateMode {
  import opened Options
  import opened BitrateRing
  import opened SinkSpec
  import opened TrackSpec
  import opened PeerSpec

  type SinkId = string

  type PeerId = nat

  /** Identities of session objects: they are not used again. */
  type SessionId = nat

  type JobId = nat

  datatype TrackRef = VideoOf(peer: PeerId) | AudioOf(peer: PeerId)

  /** `filed` until it is deleted; `peer` is its current WebRTC peer. */
  datatype Session = Session(filed: bool, isAdmin: bool, canWatch: bool, peer: Option<PeerId>)

  /** Where a call has got to: the loop of a settings change before it lists the sessions, before it looks
      at the next of them, and before it fetches the peer of the one it has looked at; a profile update
      before it fetches the peer and before it looks; a connection request before it looks, which it never
      does if its offer fails; and any of them before it calls SetPaused, after which the loop goes on. */
  datatype Job =
    | Listing
    | Visiting(rest: seq<SessionId>)
    | LookedAt(s: SessionId, enabled: bool, rest: seq<SessionId>)
    | Updated(s: SessionId)
    | Holding(s: SessionId, peer: PeerId)
    | Requesting(s: SessionId, peer: PeerId)
    | Pausing(peer: PeerId, enabled: bool, rest: seq<SessionId>)

  datatype Room = Room(
    privateMode: bool,
    sessions: map<SessionId, Session>,
    peers: map<PeerId, Peer<SinkId>>,
    jobs: map<JobId, Job>,
    audio: SinkId,
    sinks: map<SinkId, Sink<TrackRef>>,
    resizing: set<SinkId>)

  predicate PrivateModeEnabled(r: Room, s: SessionId)
    requires s in r.sessions
  {
    r.privateMode && !r.sessions[s].isAdmin
  }

  /** `job` names the call that a step begins or takes further, `order` is the list of sessions that a loop
      gets, `works` the set of tracks for which a pipeline could be built if one is needed. */
  datatype Event =
    | UpdateSettings(privateMode: bool, job: JobId)
    | UpdateProfile(session: SessionId, isAdmin: bool, canWatch: bool, job: JobId)
    | CreateSession(session: SessionId, isAdmin: bool, canWatch: bool)
    | DeleteSession(session: SessionId)
    | CreatePeer(session: SessionId, peer: PeerId, job: JobId)
    | RequestFails(job: JobId)
    | Proceed(job: JobId, order: seq<SessionId>, works: set<TrackRef>)
    | SetPeerVideo(peer: PeerId, request: VideoRequest<SinkId>, canAuto: bool, unpauseWorks: bool, switchWorks: bool)
    | SetPeerAudio(peer: PeerId, disabled: Option<bool>, audioWorks: bool)
    | PeerClosed(peer: PeerId)
    | ShutdownTrack(track: TrackRef)
    | Emit(sink: SinkId, sample: Sample)
    | DestroyForResize(sink: SinkId)
    | RecreateAfterResize(sink: SinkId, recreates: bool)

  ghost predicate ListsFiled(r: Room, order: seq<SessionId>) {
    forall s :: s in order <==> s in r.sessions && r.sessions[s].filed
  }

  /** When a step can happen: its objects exist, new ones are new, a loop gets the sessions that are filed,
      and recreating a pipeline after a resize succeeds (the process ends otherwise). */
  ghost predicate Allowed(r: Room, e: Event) {
    match e
    case UpdateSettings(_, j) => j !in r.jobs
    case UpdateProfile(s, _, _, j) => s in r.sessions && r.sessions[s].filed && j !in r.jobs
    case CreateSession(s, _, _) => s !in r.sessions
    case DeleteSession(s) => s in r.sessions
    case CreatePeer(s, p, j) => s in r.sessions && r.sessions[s].canWatch && p !in r.peers && j !in r.jobs
    case RequestFails(j) => j in r.jobs && r.jobs[j].Requesting?
    case Proceed(j, order, _) => j in r.jobs && (r.jobs[j].Listing? ==> ListsFiled(r, order))
    case SetPeerVideo(p, req, _, _, _) =>
      p in r.peers && (req.stream.Some? && req.stream.value.Some? ==> req.stream.value.value in r.sinks)
    case SetPeerAudio(p, _, _) => p in r.peers
    case PeerClosed(p) => p in r.peers
    case ShutdownTrack(t) => t.peer in r.peers
    case Emit(s, _) => s in r.sinks
    case DestroyForResize(s) => s in r.sinks
    case RecreateAfterResize(s, recreates) => s in r.sinks && AfterResize(r.sinks[s], recreates).1
  }

  function TrackOf(p: Peer<SinkId>, t: TrackRef): Track<SinkId> {
    if t.VideoOf? then p.video else p.audio
  }

  function WithTrack(p: Peer<SinkId>, t: TrackRef, track: Track<SinkId>): Peer<SinkId> {
    if t.VideoOf? then p.(video := track) else p.(audio := track)
  }

  // ---- the invariant --------------------------------------------------------------------------

  /** Every peer's flags and tracks are in order. */
  ghost predicate PeersOk(peers: map<PeerId, Peer<SinkId>>, sinks: map<SinkId, Sink<TrackRef>>) {
    forall p :: p in peers ==> PeerOk(peers[p], VideoOf(p), AudioOf(p), sinks)
  }

  /** Nobody unknown is filed. */
  ghost predicate KnownFiled(peers: set<PeerId>, sinks: map<SinkId, Sink<TrackRef>>) {
    forall s :: s in sinks ==> forall t :: t in Members(sinks[s]) ==> t.peer in peers
  }

  /** Current peers exist, and no two sessions share one. */
  ghost predicate CurrentPeersOk(sessions: map<SessionId, Session>, peers: set<PeerId>) {
    && (forall s :: s in sessions && sessions[s].peer.Some? ==> sessions[s].peer.value in peers)
    && (forall s, q | s in sessions && q in sessions && sessions[s].peer.Some? && s != q ::
          sessions[s].peer != sessions[q].peer)
  }

  /** What a call has in hand exists. */
  ghost predicate JobOk(job: Job, sessions: set<SessionId>, peers: set<PeerId>) {
    match job
    case Listing => true
    case Visiting(rest) => forall s :: s in rest ==> s in sessions
    case LookedAt(s, _, rest) => s in sessions && forall q :: q in rest ==> q in sessions
    case Updated(s) => s in sessions
    case Holding(s, p) => s in sessions && p in peers
    case Requesting(s, p) => s in sessions && p in peers
    case Pausing(p, _, rest) => p in peers && forall s :: s in rest ==> s in sessions
  }

  ghost predicate JobsOk(jobs: map<JobId, Job>, sessions: set<SessionId>, peers: set<PeerId>) {
    forall j :: j in jobs ==> JobOk(jobs[j], sessions, peers)
  }

  ghost predicate MediaOk(r: Room) {
    && r.audio in r.sinks
    && AllSinksOk(r.sinks, r.resizing)
    && PeersOk(r.peers, r.sinks)
    && KnownFiled(r.peers.Keys, r.sinks)
    && CurrentPeersOk(r.sessions, r.peers.Keys)
    && JobsOk(r.jobs, r.sessions.Keys, r.peers.Keys)
  }

  // ---- the steps ------------------------------------------------------------------------------

  ghost function PausePeer(r: Room, p: PeerId, paused: bool, works: set<TrackRef>): Room
    requires MediaOk(r) && p in r.peers
  {
    var (peer, sinks) := SetPaused(r.peers[p], VideoOf(p), AudioOf(p), r.sinks, paused,
                                   VideoOf(p) in works, AudioOf(p) in works);
    r.(peers := r.peers[p := peer], sinks := sinks)
  }

  /** Where a call has got to after its next step, unless it is done. */
  ghost function NextJob(r: Room, job: Job, order: seq<SessionId>): Option<Job>
    requires JobOk(job, r.sessions.Keys, r.peers.Keys)
  {
    match job
    case Listing => Some(Visiting(order))
    case Visiting(rest) =>
      if rest == [] then None
      else Some(LookedAt(rest[0], PrivateModeEnabled(r, rest[0]), rest[1..]))
    case LookedAt(s, enabled, rest) =>
      if r.sessions[s].peer.None? then Some(Visiting(rest)) else Some(Pausing(r.sessions[s].peer.value, enabled, rest))
    case Updated(s) =>
      if r.sessions[s].peer.None? then None else Some(Holding(s, r.sessions[s].peer.value))
    case Holding(s, p) => Some(Pausing(p, PrivateModeEnabled(r, s), []))
    case Requesting(s, p) => if PrivateModeEnabled(r, s) then Some(Pausing(p, true, [])) else None
    case Pausing(_, _, rest) => Some(Visiting(rest))
  }

  function WithJob(r: Room, j: JobId, job: Option<Job>): Room {
    r.(jobs := if job.Some? then r.jobs[j := job.value] else r.jobs - {j})
  }

  ghost function AfterProceed(r: Room, j: JobId, order: seq<SessionId>, works: set<TrackRef>): Room
    requires MediaOk(r) && j in r.jobs
  {
    var job := r.jobs[j];
    var r1 := if job.Pausing? then PausePeer(r, job.peer, job.enabled, works) else r;
    WithJob(r1, j, NextJob(r, job, order))
  }

  function AfterSettings(r: Room, on: bool, j: JobId): Room {
    var r1 := r.(privateMode := on);
    if on == r.privateMode then r1 else WithJob(r1, j, Some(Listing))
  }

  function AfterProfile(r: Room, s: SessionId, isAdmin: bool, canWatch: bool, j: JobId): Room
    requires s in r.sessions
  {
    WithJob(r.(sessions := r.sessions[s := r.sessions[s].(isAdmin := isAdmin, canWatch := canWatch)]), j,
            Some(Updated(s)))
  }

  function AfterCreatePeer(r: Room, s: SessionId, p: PeerId, j: JobId): Room
    requires s in r.sessions
  {
    r.(sessions := r.sessions[s := r.sessions[s].(peer := Some(p))],
       peers := r.peers[p := NewPeer(r.audio)],
       jobs := r.jobs[j := Requesting(s, p)])
  }

  ghost function AfterVideo(r: Room, p: PeerId, req: VideoRequest<SinkId>, canAuto: bool, w1: bool, w2: bool): Room
    requires MediaOk(r) && p in r.peers
    requires req.stream.Some? && req.stream.value.Some? ==> req.stream.value.value in r.sinks
  {
    var (peer, sinks, _) := SetVideo(r.peers[p], VideoOf(p), r.sinks, req, canAuto, w1, w2);
    r.(peers := r.peers[p := peer], sinks := sinks)
  }

  ghost function AfterAudio(r: Room, p: PeerId, disabled: Option<bool>, works: bool): Room
    requires MediaOk(r) && p in r.peers
  {
    var (peer, sinks, _) := SetAudio(r.peers[p], AudioOf(p), r.sinks, disabled, works);
    r.(peers := r.peers[p := peer], sinks := sinks)
  }

  function AfterClose(r: Room, p: PeerId): Room {
    r.(sessions := map s | s in r.sessions ::
         if r.sessions[s].peer == Some(p) then r.sessions[s].(peer := None) else r.sessions[s])
  }

  ghost function AfterShutdown(r: Room, t: TrackRef): Room
    requires MediaOk(r) && t.peer in r.peers
  {
    var (track, sinks) := RemoveStream(TrackOf(r.peers[t.peer], t), t, r.sinks);
    r.(peers := r.peers[t.peer := WithTrack(r.peers[t.peer], t, track)], sinks := sinks)
  }

  ghost function Step(r: Room, e: Event): Room
    requires MediaOk(r) && Allowed(r, e)
  {
    match e
    case UpdateSettings(on, j) => AfterSettings(r, on, j)
    case UpdateProfile(s, isAdmin, canWatch, j) => AfterProfile(r, s, isAdmin, canWatch, j)
    case CreateSession(s, isAdmin, canWatch) => r.(sessions := r.sessions[s := Session(true, isAdmin, canWatch, None)])
    case DeleteSession(s) => r.(sessions := r.sessions[s := r.sessions[s].(filed := false)])
    case CreatePeer(s, p, j) => AfterCreatePeer(r, s, p, j)
    case RequestFails(j) => WithJob(r, j, None)
    case Proceed(j, order, works) => AfterProceed(r, j, order, works)
    case SetPeerVideo(p, req, canAuto, w1, w2) => AfterVideo(r, p, req, canAuto, w1, w2)
    case SetPeerAudio(p, disabled, works) => AfterAudio(r, p, disabled, works)
    case PeerClosed(p) => AfterClose(r, p)
    case ShutdownTrack(t) => AfterShutdown(r, t)
    case Emit(s, x) => r.(sinks := r.sinks[s := OnSample(r.sinks[s], x)])
    case DestroyForResize(s) =>
      r.(sinks := r.sinks[s := BeforeResize(r.sinks[s])], resizing := r.resizing + {s})
    case RecreateAfterResize(s, recreates) =>
      r.(sinks := r.sinks[s := AfterResize(r.sinks[s], recreates).0], resizing := r.resizing - {s})
  }

  // ---- every step keeps it --------------------------------------------------------------------

  lemma KnownStayKnown(p: PeerId, peers: set<PeerId>, before: map<SinkId, Sink<TrackRef>>,
                       after: map<SinkId, Sink<TrackRef>>)
    requires KnownFiled(peers, before)
    requires p in peers && OnlyTwoMove(before, after, VideoOf(p), AudioOf(p))
    ensures KnownFiled(peers, after)
  {
    forall s, t | s in after && t in Members(after[s]) ensures t.peer in peers {
      if t != VideoOf(p) && t != AudioOf(p) {
        assert t in Members(after[s]) - {VideoOf(p), AudioOf(p)};
        assert t in Members(before[s]) - {VideoOf(p), AudioOf(p)};
      }
    }
  }

  lemma TrackUntouched(track: Track<SinkId>, t: TrackRef, p: PeerId, before: map<SinkId, Sink<TrackRef>>,
                       after: map<SinkId, Sink<TrackRef>>)
    requires FiledRight(track, t, before) && t.peer != p
    requires OnlyTwoMove(before, after, VideoOf(p), AudioOf(p))
    ensures FiledRight(track, t, after)
  {
    forall s | s in after ensures t in Members(after[s]) <==> Place(track) == Some(s) {
      assert t in Members(after[s]) <==> t in Members(after[s]) - {VideoOf(p), AudioOf(p)};
      assert t in Members(before[s]) <==> t in Members(before[s]) - {VideoOf(p), AudioOf(p)};
    }
  }

  lemma PeerUntouched(peer: Peer<SinkId>, q: PeerId, p: PeerId, before: map<SinkId, Sink<TrackRef>>,
                      after: map<SinkId, Sink<TrackRef>>)
    requires PeerOk(peer, VideoOf(q), AudioOf(q), before) && q != p
    requires OnlyTwoMove(before, after, VideoOf(p), AudioOf(p))
    ensures PeerOk(peer, VideoOf(q), AudioOf(q), after)
  {
    TrackUntouched(peer.video, VideoOf(q), p, before, after);
    TrackUntouched(peer.audio, AudioOf(q), p, before, after);
  }

  lemma ReplacedPeersOk(r: Room, p: PeerId, peer: Peer<SinkId>, sinks: map<SinkId, Sink<TrackRef>>)
    requires PeersOk(r.peers, r.sinks) && PeerOk(peer, VideoOf(p), AudioOf(p), sinks)
    requires OnlyTwoMove(r.sinks, sinks, VideoOf(p), AudioOf(p))
    ensures PeersOk(r.peers[p := peer], sinks)
  {
    hide PeerOk, OnlyTwoMove;
    forall q | q in r.peers && q != p ensures PeerOk(r.peers[q], VideoOf(q), AudioOf(q), sinks) {
      PeerUntouched(r.peers[q], q, p, r.sinks, sinks);
    }
  }

  /** One peer and its two listeners change; everything else of the room's media stays in order. */
  lemma ReplacePeer(r: Room, p: PeerId, peer: Peer<SinkId>, sinks: map<SinkId, Sink<TrackRef>>)
    requires MediaOk(r) && p in r.peers
    requires PeerStep(peer, VideoOf(p), AudioOf(p), r.sinks, sinks, r.resizing)
    ensures MediaOk(r.(peers := r.peers[p := peer], sinks := sinks))
  {
    hide PeersOk, PeerOk, AllSinksOk, KnownFiled, CurrentPeersOk;
    ReplacedPeersOk(r, p, peer, sinks);
    KnownStayKnown(p, r.peers.Keys, r.sinks, sinks);
    assert sinks.Keys == r.sinks.Keys;
    assert r.peers[p := peer].Keys == r.peers.Keys;
  }

  lemma PausePeerKeeps(r: Room, p: PeerId, paused: bool, works: set<TrackRef>)
    requires MediaOk(r) && p in r.peers
    ensures var r' := PausePeer(r, p, paused, works);
      && MediaOk(r') && r'.peers.Keys == r.peers.Keys && r'.peers[p].paused == paused
      && r'.sessions == r.sessions && r'.jobs == r.jobs && r'.privateMode == r.privateMode
      && (forall q :: q in r.peers && q != p ==> r'.peers[q] == r.peers[q])
      && r'.peers[p].video.stream == r.peers[p].video.stream
      && r'.peers[p].audioDisabled == r.peers[p].audioDisabled
  {
    hide PeerStep, KnownFiled, CurrentPeersOk, JobsOk, AllSinksOk, FlagsRule, FiledAt;
    var (peer, sinks) := SetPaused(r.peers[p], VideoOf(p), AudioOf(p), r.sinks, paused,
                                   VideoOf(p) in works, AudioOf(p) in works);
    SetPausedKeeps(r.peers[p], VideoOf(p), AudioOf(p), r.sinks, r.resizing, paused,
                   VideoOf(p) in works, AudioOf(p) in works);
    ReplacePeer(r, p, peer, sinks);
  }

  lemma NextJobOk(r: Room, j: JobId, order: seq<SessionId>)
    requires MediaOk(r) && j in r.jobs && (r.jobs[j].Listing? ==> ListsFiled(r, order))
    ensures var next := NextJob(r, r.jobs[j], order);
            next.Some? ==> JobOk(next.value, r.sessions.Keys, r.peers.Keys)
  {
    hide AllSinksOk, PeersOk, KnownFiled;
  }

  lemma ProceedKeeps(r: Room, j: JobId, order: seq<SessionId>, works: set<TrackRef>)
    requires MediaOk(r) && j in r.jobs && (r.jobs[j].Listing? ==> ListsFiled(r, order))
    ensures MediaOk(AfterProceed(r, j, order, works))
  {
    hide AllSinksOk, PeersOk, KnownFiled, CurrentPeersOk, PausePeer, NextJob;
    NextJobOk(r, j, order);
    if r.jobs[j].Pausing? {
      PausePeerKeeps(r, r.jobs[j].peer, r.jobs[j].enabled, works);
    }
  }

  lemma NewPeerOk(r: Room, p: PeerId)
    requires MediaOk(r) && p !in r.peers
    ensures PeerOk(NewPeer(r.audio), VideoOf(p), AudioOf(p), r.sinks)
  {
    forall s | s in r.sinks ensures VideoOf(p) !in Members(r.sinks[s]) && AudioOf(p) !in Members(r.sinks[s]) {
    }
  }

  lemma CreatePeerKeeps(r: Room, s: SessionId, p: PeerId, j: JobId)
    requires MediaOk(r) && s in r.sessions && p !in r.peers
    ensures MediaOk(AfterCreatePeer(r, s, p, j))
  {
    hide AllSinksOk, FlagsRule, FiledRight, PeerOk, Members;
    NewPeerOk(r, p);
    var r' := AfterCreatePeer(r, s, p, j);
    assert CurrentPeersOk(r'.sessions, r'.peers.Keys);
    forall q | q in r'.peers ensures PeerOk(r'.peers[q], VideoOf(q), AudioOf(q), r'.sinks) {
      assert q != p ==> PeerOk(r.peers[q], VideoOf(q), AudioOf(q), r.sinks);
    }
    assert forall k :: k in r.jobs ==> JobOk(r.jobs[k], r.sessions.Keys, r.peers.Keys);
  }

  /** Sessions may come, be marked or lose their peers. */
  lemma SessionsKeep(r: Room, r': Room)
    requires MediaOk(r) && r' == r.(sessions := r'.sessions) && r.sessions.Keys <= r'.sessions.Keys
    requires forall s :: s in r'.sessions && r'.sessions[s].peer.Some? ==>
               s in r.sessions && r'.sessions[s].peer == r.sessions[s].peer
    ensures MediaOk(r')
  {
    hide AllSinksOk, PeersOk, KnownFiled;
    assert CurrentPeersOk(r'.sessions, r'.peers.Keys);
    assert forall k :: k in r.jobs ==> JobOk(r.jobs[k], r.sessions.Keys, r.peers.Keys);
  }

  lemma ProfileKeeps(r: Room, s: SessionId, isAdmin: bool, canWatch: bool, j: JobId)
    requires MediaOk(r) && s in r.sessions
    ensures MediaOk(AfterProfile(r, s, isAdmin, canWatch, j))
  {
    hide AllSinksOk, PeersOk, KnownFiled;
    var sessions' := AfterProfile(r, s, isAdmin, canWatch, j).sessions;
    SessionsKeep(r, r.(sessions := sessions'));
    assert sessions'.Keys == r.sessions.Keys;
  }

  lemma VideoKeeps(r: Room, p: PeerId, req: VideoRequest<SinkId>, canAuto: bool, w1: bool, w2: bool)
    requires MediaOk(r) && p in r.peers
    requires req.stream.Some? && req.stream.value.Some? ==> req.stream.value.value in r.sinks
    ensures MediaOk(AfterVideo(r, p, req, canAuto, w1, w2))
    ensures AfterVideo(r, p, req, canAuto, w1, w2).peers[p].paused == r.peers[p].paused
  {
    var (peer, sinks, _) := SetVideo(r.peers[p], VideoOf(p), r.sinks, req, canAuto, w1, w2);
    SetVideoKeeps(r.peers[p], VideoOf(p), AudioOf(p), r.sinks, r.resizing, req, canAuto, w1, w2);
    ReplacePeer(r, p, peer, sinks);
  }

  lemma AudioKeeps(r: Room, p: PeerId, disabled: Option<bool>, works: bool)
    requires MediaOk(r) && p in r.peers
    ensures MediaOk(AfterAudio(r, p, disabled, works))
    ensures AfterAudio(r, p, disabled, works).peers[p].paused == r.peers[p].paused
  {
    var (peer, sinks, _) := SetAudio(r.peers[p], AudioOf(p), r.sinks, disabled, works);
    SetAudioKeeps(r.peers[p], VideoOf(p), AudioOf(p), r.sinks, r.resizing, disabled, works);
    ReplacePeer(r, p, peer, sinks);
  }

  lemma ShutdownKeeps(r: Room, t: TrackRef)
    requires MediaOk(r) && t.peer in r.peers
    ensures MediaOk(AfterShutdown(r, t))
  {
    var p := t.peer;
    var peer := r.peers[p];
    var (track, sinks) := RemoveStream(TrackOf(peer, t), t, r.sinks);
    RemoveStreamKeeps(TrackOf(peer, t), t, r.sinks, r.resizing);
    if t.VideoOf? {
      VideoTrackStep(peer, track, VideoOf(p), AudioOf(p), r.sinks, sinks, r.resizing);
    } else {
      AudioTrackStep(peer.video, track, VideoOf(p), AudioOf(p), r.sinks, sinks, r.resizing);
    }
    ReplacePeer(r, p, WithTrack(peer, t, track), sinks);
  }

  lemma PlacesKept(r: Room, s: SinkId, sink: Sink<TrackRef>)
    requires PeersOk(r.peers, r.sinks) && s in r.sinks && Members(sink) == Members(r.sinks[s])
    ensures PeersOk(r.peers, r.sinks[s := sink])
  {
    hide FlagsRule, Members;
    forall p | p in r.peers ensures PeerOk(r.peers[p], VideoOf(p), AudioOf(p), r.sinks[s := sink]) {
      assert PeerOk(r.peers[p], VideoOf(p), AudioOf(p), r.sinks);
    }
  }

  /** A sink may change in whatever it does itself, as long as nobody comes or goes. */
  lemma SinkStepKeeps(r: Room, s: SinkId, sink: Sink<TrackRef>, resizing: set<SinkId>)
    requires MediaOk(r) && s in r.sinks && Members(sink) == Members(r.sinks[s]) && SinkOk(sink, s in resizing)
    requires forall q :: q != s ==> (q in resizing <==> q in r.resizing)
    ensures MediaOk(r.(sinks := r.sinks[s := sink], resizing := resizing))
  {
    hide PeersOk, SinkOk, Members, CurrentPeersOk, JobsOk;
    PlacesKept(r, s, sink);
  }

  lemma EmitKeeps(r: Room, s: SinkId, x: Sample)
    requires MediaOk(r) && s in r.sinks
    ensures MediaOk(r.(sinks := r.sinks[s := OnSample(r.sinks[s], x)]))
  {
    SampleKeeps(r.sinks[s], x, s in r.resizing);
    SinkStepKeeps(r, s, OnSample(r.sinks[s], x), r.resizing);
  }

  lemma DestroyKeeps(r: Room, s: SinkId)
    requires MediaOk(r) && s in r.sinks
    ensures MediaOk(r.(sinks := r.sinks[s := BeforeResize(r.sinks[s])], resizing := r.resizing + {s}))
  {
    ResizeKeeps(r.sinks[s], s in r.resizing, true);
    SinkStepKeeps(r, s, BeforeResize(r.sinks[s]), r.resizing + {s});
  }

  lemma RecreateKeeps(r: Room, s: SinkId, recreates: bool)
    requires MediaOk(r) && s in r.sinks && AfterResize(r.sinks[s], recreates).1
    ensures MediaOk(r.(sinks := r.sinks[s := AfterResize(r.sinks[s], recreates).0], resizing := r.resizing - {s}))
  {
    ResizeKeeps(r.sinks[s], s in r.resizing, recreates);
    SinkStepKeeps(r, s, AfterResize(r.sinks[s], recreates).0, r.resizing - {s});
  }

  lemma StepKeeps(r: Room, e: Event)
    requires MediaOk(r) && Allowed(r, e)
    ensures MediaOk(Step(r, e))
  {
    hide AfterProfile, AfterCreatePeer, AfterVideo, AfterAudio, AfterShutdown, AfterProceed, PausePeer, NextJob,
      OnSample, BeforeResize, AfterResize, PeersOk, AllSinksOk, CurrentPeersOk, KnownFiled;
    match e
    case UpdateSettings(_, _) =>
    case UpdateProfile(s, isAdmin, canWatch, j) => ProfileKeeps(r, s, isAdmin, canWatch, j);
    case CreateSession(_, _, _) => SessionsKeep(r, Step(r, e));
    case DeleteSession(_) => SessionsKeep(r, Step(r, e));
    case CreatePeer(s, p, j) => CreatePeerKeeps(r, s, p, j);
    case RequestFails(_) =>
    case Proceed(j, order, works) => ProceedKeeps(r, j, order, works);
    case SetPeerVideo(p, req, canAuto, w1, w2) => VideoKeeps(r, p, req, canAuto, w1, w2);
    case SetPeerAudio(p, disabled, works) => AudioKeeps(r, p, disabled, works);
    case PeerClosed(_) => SessionsKeep(r, Step(r, e));
    case ShutdownTrack(t) => ShutdownKeeps(r, t);
    case Emit(s, x) => EmitKeeps(r, s, x);
    case DestroyForResize(s) => DestroyKeeps(r, s);
    case RecreateAfterResize(s, recreates) => RecreateKeeps(r, s, recreates);
  }

  // ---- over whole runs ------------------------------------------------------------------------

  /** At the start: sinks without listeners or pipelines, no peers, no calls, sessions not yet connected. */
  ghost predicate Initial(r: Room) {
    && r.audio in r.sinks
    && (forall s :: s in r.sinks ==> r.sinks[s] == NewSink(r.sinks[s].waitForKf))
    && r.peers == map[] && r.jobs == map[] && r.resizing == {}
    && (forall s :: s in r.sessions ==> r.sessions[s].peer == None)
  }

  ghost predicate Follows(r: Room, e: Event, r': Room) {
    MediaOk(r) && Allowed(r, e) && r' == Step(r, e)
  }

  /** `states` is a run of the machine under `events`. */
  ghost predicate IsRun(states: seq<Room>, events: seq<Event>) {
    && |states| == |events| + 1
    && Initial(states[0])
    && forall i :: 0 <= i < |events| ==> Follows(states[i], events[i], states[i + 1])
  }

  lemma InitialOk(r: Room)
    requires Initial(r)
    ensures MediaOk(r)
  {
  }

  /** Every reachable state: sinks, tracks and peers agree, whatever calls are under way. */
  lemma {:induction false} ReachableOk(states: seq<Room>, events: seq<Event>, n: nat)
    requires IsRun(states, events) && n < |states|
    ensures MediaOk(states[n])
  {
    hide Step, Allowed, MediaOk;
    if n == 0 {
      InitialOk(states[0]);
    } else {
      ReachableOk(states, events, n - 1);
      assert Follows(states[n - 1], events[n - 1], states[n]);
      StepKeeps(states[n - 1], events[n - 1]);
    }
  }

  /** The tracks of a session's current peer are filed at some sink. */
  ghost predicate Watches(r: Room, s: SessionId)
    requires s in r.sessions
  {
    && r.sessions[s].peer.Some?
    && exists k :: k in r.sinks && (VideoOf(r.sessions[s].peer.value) in Members(r.sinks[k])
                                    || AudioOf(r.sessions[s].peer.value) in Members(r.sinks[k]))
  }

  /** In every reachable state a track is registered exactly at the stream it has, while it is not
      paused: so at one sink at most, and there in one of the two maps only. */
  lemma SingleRegistration(states: seq<Room>, events: seq<Event>, n: nat, t: TrackRef, k: SinkId)
    requires IsRun(states, events) && n < |states| && k in states[n].sinks
    ensures var r := states[n]; var sink := r.sinks[k];
      && (Registered(sink, t)
          <==> && t.peer in r.peers
               && !TrackOf(r.peers[t.peer], t).paused
               && TrackOf(r.peers[t.peer], t).stream == Some(k))
      && !(t in sink.listeners && t in sink.lobby)
      && (forall j :: j in r.sinks && Registered(sink, t) && Registered(r.sinks[j], t) ==> j == k)
  {
    ReachableOk(states, events, n);
    var r := states[n];
    forall j | j in r.sinks
      ensures Registered(r.sinks[j], t)
              <==> && t.peer in r.peers
                   && !TrackOf(r.peers[t.peer], t).paused
                   && TrackOf(r.peers[t.peer], t).stream == Some(j)
    {
      RegisteredIffMember(r.sinks[j], t);
      if t.peer in r.peers { assert PeerOk(r.peers[t.peer], VideoOf(t.peer), AudioOf(t.peer), r.sinks); }
    }
    assert SinkOk(r.sinks[k], k in r.resizing);
  }

  /** In every reachable state a sink that is not in the middle of a resize has a pipeline exactly
      while it has a listener, and whoever waits there for a keyframe has one coming. */
  lemma PipelineIffListened(states: seq<Room>, events: seq<Event>, n: nat, k: SinkId)
    requires IsRun(states, events) && n < |states| && k in states[n].sinks && k !in states[n].resizing
    ensures states[n].sinks[k].pipeline <==> Started(states[n].sinks[k])
    ensures states[n].sinks[k].lobby != {} ==> states[n].sinks[k].keyframeDue
  {
    ReachableOk(states, events, n);
    assert SinkOk(states[n].sinks[k], false);
    StartedIffMembers(states[n].sinks[k]);
  }

  // ---- who sees to it that a peer is paused ---------------------------------------------------

  /** The call will yet look at session s, and then take up its current peer p, or is about to set the pause
      of p to b. A connection request only ever pauses. */
  ghost predicate Due(job: Job, s: SessionId, p: PeerId, b: bool) {
    match job
    case Listing => true
    case Visiting(rest) => s in rest
    case LookedAt(t, enabled, rest) => (t == s && enabled == b) || s in rest
    case Updated(t) => t == s
    case Holding(t, q) => t == s && q == p
    case Requesting(t, q) => b && t == s && q == p
    case Pausing(q, enabled, rest) => (q == p && enabled == b) || s in rest
  }

  ghost predicate DueIn(jobs: map<JobId, Job>, s: SessionId, p: PeerId, b: bool) {
    exists j :: j in jobs && Due(jobs[j], s, p, b)
  }

  /** p is the current peer of the session s, which is filed. */
  ghost predicate Current(r: Room, s: SessionId, p: PeerId) {
    s in r.sessions && r.sessions[s].filed && r.sessions[s].peer == Some(p) && p in r.peers
  }

  /** The peer is paused exactly if private mode applies to its session, or a call that is under way will
      see to that. */
  ghost predicate SeenTo(r: Room, s: SessionId, p: PeerId)
    requires Current(r, s, p)
  {
    r.peers[p].paused == PrivateModeEnabled(r, s) || DueIn(r.jobs, s, p, PrivateModeEnabled(r, s))
  }

  ghost predicate AllSeenTo(r: Room) {
    forall s, p :: Current(r, s, p) ==> SeenTo(r, s, p)
  }

  /** The step pauses or unpauses the current peer of a session after an outdated look, and no call that is
      under way will correct it. */
  ghost predicate Stale(r: Room, e: Event) {
    && e.Proceed? && e.job in r.jobs && r.jobs[e.job].Pausing?
    && exists s :: Current(r, s, r.jobs[e.job].peer) && StaleFor(r, e.job, s)
  }

  ghost predicate StaleFor(r: Room, j: JobId, s: SessionId)
    requires j in r.jobs && r.jobs[j].Pausing? && s in r.sessions
  {
    var job, enabled := r.jobs[j], PrivateModeEnabled(r, s);
    job.enabled != enabled && !DueIn(r.jobs[j := Visiting(job.rest)], s, job.peer, enabled)
  }

  /** A connection request fails before it has looked, its peer is current and not paused although private
      mode applies, and no other call that is under way will see to that. */
  ghost predicate Abandons(r: Room, e: Event) {
    && e.RequestFails? && e.job in r.jobs && r.jobs[e.job].Requesting?
    && var s, p := r.jobs[e.job].s, r.jobs[e.job].peer;
       Current(r, s, p) && PrivateModeEnabled(r, s) && !r.peers[p].paused && !DueIn(r.jobs - {e.job}, s, p, true)
  }

  /** The step leaves a current peer paused, or not, as it should not be, and nobody will correct it. */
  ghost predicate Neglects(r: Room, e: Event) {
    Stale(r, e) || Abandons(r, e)
  }

  lemma DueElsewhere(jobs: map<JobId, Job>, j: JobId, next: Option<Job>, s: SessionId, p: PeerId, b: bool)
    requires DueIn(jobs, s, p, b)
    requires j in jobs && Due(jobs[j], s, p, b) ==> next.Some? && Due(next.value, s, p, b)
    ensures DueIn(if next.Some? then jobs[j := next.value] else jobs - {j}, s, p, b)
  {
    hide Due;
    var k :| k in jobs && Due(jobs[k], s, p, b);
    var jobs' := if next.Some? then jobs[j := next.value] else jobs - {j};
    assert k != j ==> jobs'[k] == jobs[k];
    assert Due(jobs'[k], s, p, b);
  }

  lemma DueStays(jobs: map<JobId, Job>, jobs': map<JobId, Job>, s: SessionId, p: PeerId, b: bool)
    requires DueIn(jobs, s, p, b) && forall j :: j in jobs ==> j in jobs' && jobs'[j] == jobs[j]
    ensures DueIn(jobs', s, p, b)
  {
    hide Due;
    var k :| k in jobs && Due(jobs[k], s, p, b);
    assert Due(jobs'[k], s, p, b);
  }

  /** As long as it does not come to SetPaused, a call that will see to a peer still will after a step. */
  lemma NextIsDue(r: Room, j: JobId, order: seq<SessionId>, s: SessionId, p: PeerId)
    requires MediaOk(r) && j in r.jobs && (r.jobs[j].Listing? ==> ListsFiled(r, order)) && Current(r, s, p)
    requires !r.jobs[j].Pausing? && Due(r.jobs[j], s, p, PrivateModeEnabled(r, s))
    ensures var next := NextJob(r, r.jobs[j], order); next.Some? && Due(next.value, s, p, PrivateModeEnabled(r, s))
  {
    hide AllSinksOk, PeersOk, KnownFiled, CurrentPeersOk;
  }

  /** A step that is not SetPaused. */
  lemma LookKeepsSeen(r: Room, j: JobId, order: seq<SessionId>, works: set<TrackRef>)
    requires MediaOk(r) && j in r.jobs && (r.jobs[j].Listing? ==> ListsFiled(r, order)) && !r.jobs[j].Pausing?
    requires AllSeenTo(r)
    ensures AllSeenTo(AfterProceed(r, j, order, works))
  {
    hide MediaOk, Due, DueIn, NextJob;
    JobsAreOk(r);
    var r' := AfterProceed(r, j, order, works);
    forall s, p | Current(r', s, p) ensures SeenTo(r', s, p) {
      assert SeenTo(r, s, p);
      var b := PrivateModeEnabled(r, s);
      if r.peers[p].paused != b {
        if Due(r.jobs[j], s, p, b) { NextIsDue(r, j, order, s, p); }
        DueElsewhere(r.jobs, j, NextJob(r, r.jobs[j], order), s, p, b);
      }
    }
  }

  lemma JobsAreOk(r: Room)
    requires MediaOk(r)
    ensures JobsOk(r.jobs, r.sessions.Keys, r.peers.Keys)
  {
  }

  /** SetPaused leaves a session seen to exactly if it is not outdated for it. */
  lemma PauseSeenIff(r: Room, j: JobId, order: seq<SessionId>, works: set<TrackRef>, s: SessionId, p: PeerId)
    requires MediaOk(r) && j in r.jobs && r.jobs[j].Pausing? && Current(r, s, p) && SeenTo(r, s, p)
    ensures Current(AfterProceed(r, j, order, works), s, p)
    ensures SeenTo(AfterProceed(r, j, order, works), s, p) <==> !(r.jobs[j].peer == p && StaleFor(r, j, s))
  {
    hide PausePeer, Due, DueIn, MediaOk;
    JobsAreOk(r);
    PausePeerKeeps(r, r.jobs[j].peer, r.jobs[j].enabled, works);
    var b := PrivateModeEnabled(r, s);
    if r.jobs[j].peer != p && r.peers[p].paused != b {
      PausingOtherIsDue(r.jobs[j], s, p, b);
      DueElsewhere(r.jobs, j, Some(Visiting(r.jobs[j].rest)), s, p, b);
    }
  }

  lemma PausingOtherIsDue(job: Job, s: SessionId, p: PeerId, b: bool)
    requires job.Pausing? && job.peer != p
    ensures Due(job, s, p, b) ==> Due(Visiting(job.rest), s, p, b)
  {
  }

  lemma PauseKeepsSeenIff(r: Room, j: JobId, order: seq<SessionId>, works: set<TrackRef>)
    requires MediaOk(r) && j in r.jobs && r.jobs[j].Pausing? && AllSeenTo(r)
    ensures AllSeenTo(AfterProceed(r, j, order, works)) <==> !Stale(r, Proceed(j, order, works))
  {
    hide MediaOk, AfterProceed, SeenTo, StaleFor;
    var r', q := AfterProceed(r, j, order, works), r.jobs[j].peer;
    SameCurrent(r, j, order, works);
    forall s, p | Current(r, s, p) ensures SeenTo(r', s, p) <==> !(q == p && StaleFor(r, j, s)) {
      PauseSeenIff(r, j, order, works, s, p);
    }
    if s :| Current(r, s, q) && StaleFor(r, j, s) {
      assert Current(r', s, q) && !SeenTo(r', s, q);
    }
  }

  lemma SameCurrent(r: Room, j: JobId, order: seq<SessionId>, works: set<TrackRef>)
    requires MediaOk(r) && j in r.jobs && r.jobs[j].Pausing?
    ensures forall s, p :: Current(AfterProceed(r, j, order, works), s, p) <==> Current(r, s, p)
  {
    hide PausePeer, MediaOk;
    JobsAreOk(r);
    PausePeerKeeps(r, r.jobs[j].peer, r.jobs[j].enabled, works);
  }

  lemma SettingsKeepSeen(r: Room, on: bool, j: JobId)
    requires AllSeenTo(r) && j !in r.jobs
    ensures AllSeenTo(AfterSettings(r, on, j))
  {
    var r' := AfterSettings(r, on, j);
    if on == r.privateMode {
      assert r' == r;
    } else {
      assert r'.jobs[j] == Listing;
    }
  }

  lemma ProfileKeepsSeen(r: Room, s: SessionId, isAdmin: bool, canWatch: bool, j: JobId)
    requires AllSeenTo(r) && s in r.sessions && j !in r.jobs
    ensures AllSeenTo(AfterProfile(r, s, isAdmin, canWatch, j))
  {
    hide Due;
    var r' := AfterProfile(r, s, isAdmin, canWatch, j);
    forall q, p | Current(r', q, p) ensures SeenTo(r', q, p) {
      assert Current(r, q, p) && SeenTo(r, q, p);
      if q == s {
        UpdateIsDue(s, p, PrivateModeEnabled(r', s));
        assert r'.jobs[j] == Updated(s);
      } else if r.peers[p].paused != PrivateModeEnabled(r, q) {
        DueStays(r.jobs, r'.jobs, q, p, PrivateModeEnabled(r, q));
      }
    }
  }

  lemma UpdateIsDue(s: SessionId, p: PeerId, b: bool)
    ensures Due(Updated(s), s, p, b) && (b ==> Due(Requesting(s, p), s, p, b))
  {
  }

  lemma CreatePeerKeepsSeen(r: Room, s: SessionId, p: PeerId, j: JobId)
    requires MediaOk(r) && AllSeenTo(r) && s in r.sessions && p !in r.peers && j !in r.jobs
    ensures AllSeenTo(AfterCreatePeer(r, s, p, j))
  {
    hide Due, AllSinksOk, PeersOk, KnownFiled, JobsOk;
    var r' := AfterCreatePeer(r, s, p, j);
    forall q, x | Current(r', q, x) ensures SeenTo(r', q, x) {
      if q == s {
        UpdateIsDue(s, p, PrivateModeEnabled(r', s));
        assert r'.jobs[j] == Requesting(s, p);
      } else {
        assert Current(r, q, x) && SeenTo(r, q, x);
        if r.peers[x].paused != PrivateModeEnabled(r, q) {
          DueStays(r.jobs, r'.jobs, q, x, PrivateModeEnabled(r, q));
        }
      }
    }
  }

  /** Whatever else is under way, only the peer of the failed request can lose the call that would see to it. */
  lemma FailKeepsSeenIff(r: Room, j: JobId)
    requires AllSeenTo(r) && j in r.jobs && r.jobs[j].Requesting?
    ensures AllSeenTo(WithJob(r, j, None)) <==> !Abandons(r, RequestFails(j))
  {
    hide DueIn;
    var r', t, q := WithJob(r, j, None), r.jobs[j].s, r.jobs[j].peer;
    forall s, p | Current(r, s, p) && !(s == t && p == q && PrivateModeEnabled(r, s)) ensures SeenTo(r', s, p) {
      assert SeenTo(r, s, p);
      if r.peers[p].paused != PrivateModeEnabled(r, s) {
        DueElsewhere(r.jobs, j, None, s, p, PrivateModeEnabled(r, s));
      }
    }
    if Current(r, t, q) && PrivateModeEnabled(r, t) {
      assert Current(r', t, q);
      assert SeenTo(r', t, q) <==> !Abandons(r, RequestFails(j));
    }
  }

  /** Steps that change neither the calls under way nor any peer's own flag. */
  lemma FlagsKeepSeen(r: Room, r': Room)
    requires AllSeenTo(r) && r'.jobs == r.jobs && r'.privateMode == r.privateMode && r'.peers.Keys == r.peers.Keys
    requires forall p :: p in r.peers ==> r'.peers[p].paused == r.peers[p].paused
    requires forall s, p :: Current(r', s, p) ==> Current(r, s, p) && r'.sessions[s].isAdmin == r.sessions[s].isAdmin
    ensures AllSeenTo(r')
  {
    hide DueIn;
    forall s, p | Current(r', s, p) ensures SeenTo(r', s, p) {
      assert SeenTo(r, s, p);
    }
  }

  lemma RequestFlags(r: Room, e: Event)
    requires MediaOk(r) && Allowed(r, e) && (e.SetPeerVideo? || e.SetPeerAudio? || e.ShutdownTrack?)
    ensures var r' := Step(r, e);
      && r'.jobs == r.jobs && r'.privateMode == r.privateMode && r'.sessions == r.sessions
      && r'.peers.Keys == r.peers.Keys
      && forall p :: p in r.peers ==> r'.peers[p].paused == r.peers[p].paused
  {
    hide MediaOk, SetVideo, SetAudio, RemoveStream;
    match e
    case SetPeerVideo(p, req, canAuto, w1, w2) => VideoKeeps(r, p, req, canAuto, w1, w2);
    case SetPeerAudio(p, disabled, works) => AudioKeeps(r, p, disabled, works);
    case ShutdownTrack(_) =>
  }

  /** A step leaves every peer seen to if and only if it neglects none. */
  lemma StepSeenIff(r: Room, e: Event)
    requires MediaOk(r) && Allowed(r, e) && AllSeenTo(r)
    ensures AllSeenTo(Step(r, e)) <==> !Neglects(r, e)
  {
    hide MediaOk, AllSeenTo, AfterSettings, AfterProfile, AfterCreatePeer, AfterProceed, AfterVideo, AfterAudio,
      AfterShutdown, OnSample, BeforeResize, AfterResize, StaleFor;
    match e
    case UpdateSettings(on, j) => SettingsKeepSeen(r, on, j);
    case UpdateProfile(s, isAdmin, canWatch, j) => ProfileKeepsSeen(r, s, isAdmin, canWatch, j);
    case CreateSession(_, _, _) => FlagsKeepSeen(r, Step(r, e));
    case DeleteSession(_) => FlagsKeepSeen(r, Step(r, e));
    case CreatePeer(s, p, j) => CreatePeerKeepsSeen(r, s, p, j);
    case RequestFails(j) => FailKeepsSeenIff(r, j);
    case Proceed(j, order, works) =>
      if r.jobs[j].Pausing? { PauseKeepsSeenIff(r, j, order, works); } else { LookKeepsSeen(r, j, order, works); }
    case PeerClosed(_) => FlagsKeepSeen(r, Step(r, e));
    case Emit(_, _) => FlagsKeepSeen(r, Step(r, e));
    case DestroyForResize(_) => FlagsKeepSeen(r, Step(r, e));
    case RecreateAfterResize(_, _) => FlagsKeepSeen(r, Step(r, e));
    case _ =>
      RequestFlags(r, e);
      FlagsKeepSeen(r, Step(r, e));
  }

  /** Throughout a run every current peer is paused exactly if private mode applies to its session, but for
      what calls under way will see to, if and only if no step of the run neglects one. */
  lemma {:induction false} SeenToIff(states: seq<Room>, events: seq<Event>, n: nat)
    requires IsRun(states, events) && n < |states|
    ensures (forall i :: 0 <= i <= n ==> AllSeenTo(states[i]))
            <==> (forall i :: 0 <= i < n ==> !Neglects(states[i], events[i]))
  {
    hide MediaOk, Allowed, Step, AllSeenTo, Neglects;
    if n > 0 {
      SeenToIff(states, events, n - 1);
      var r, e := states[n - 1], events[n - 1];
      assert Follows(r, e, states[n - 1 + 1]);
      if AllSeenTo(r) {
        StepSeenIff(r, e);
        assert AllSeenTo(states[n]) <==> !Neglects(r, e);
      }
    } else {
      NobodyYet(states[0]);
    }
  }

  lemma NobodyYet(r: Room)
    requires Initial(r)
    ensures AllSeenTo(r)
  {
  }

  /** So without such steps private mode is exact for every session that no call under way is concerned
      with: its peer is paused just if private mode applies to it. */
  lemma SettledIsExact(states: seq<Room>, events: seq<Event>, n: nat, s: SessionId, p: PeerId)
    requires IsRun(states, events) && n < |states| && forall i :: 0 <= i < n ==> !Neglects(states[i], events[i])
    requires Current(states[n], s, p) && !DueIn(states[n].jobs, s, p, PrivateModeEnabled(states[n], s))
    ensures states[n].peers[p].paused == PrivateModeEnabled(states[n], s)
  {
    hide IsRun, Neglects, DueIn;
    SeenToIff(states, events, n);
    assert SeenTo(states[n], s, p);
  }

  /** And a session to which it applies watches nothing, through settings changes, profile updates, new
      peers, video and audio requests, stream switches, resizes and failed pipelines, in any interleaving. */
  lemma PrivateModeSafe(states: seq<Room>, events: seq<Event>, n: nat, s: SessionId)
    requires IsRun(states, events) && n < |states| && forall i :: 0 <= i < n ==> !Neglects(states[i], events[i])
    requires s in states[n].sessions && states[n].sessions[s].filed && PrivateModeEnabled(states[n], s)
    requires forall p :: Current(states[n], s, p) ==> !DueIn(states[n].jobs, s, p, true)
    ensures !Watches(states[n], s)
  {
    hide IsRun, Neglects, DueIn;
    ReachableOk(states, events, n);
    if states[n].sessions[s].peer.Some? {
      var p := states[n].sessions[s].peer.value;
      HasCurrent(states[n], s, p);
      SettledIsExact(states, events, n, s, p);
      PausedWatchesNothing(states[n], s, p);
    }
  }

  lemma HasCurrent(r: Room, s: SessionId, p: PeerId)
    requires MediaOk(r) && s in r.sessions && r.sessions[s].filed && r.sessions[s].peer == Some(p)
    ensures Current(r, s, p)
  {
  }

  lemma PausedWatchesNothing(r: Room, s: SessionId, p: PeerId)
    requires MediaOk(r) && Current(r, s, p) && r.peers[p].paused
    ensures !Watches(r, s)
  {
    hide AllSinksOk, KnownFiled, CurrentPeersOk, JobsOk;
    assert PeerOk(r.peers[p], VideoOf(p), AudioOf(p), r.sinks);
    assert FlagsRule(r.peers[p]);
  }
}
