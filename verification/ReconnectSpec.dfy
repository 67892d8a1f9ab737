/** The peers of one session as functions of values: connecting, delayed disconnects, and their timers.
    Every mutex-guarded method is one step; a timer that has run out may call back later than that, and
    stopping it then comes too late. */
module ReconnectSpec {
  import opened Options

  type Peer = nat

  type TimerId = nat

  /** Running timers, and those that have run out but not called back yet, with the peer they are for. */
  datatype Timers = Timers(armed: map<TimerId, Peer>, fired: map<TimerId, Peer>, next: TimerId)

  datatype Notice = Connected | Disconnected

  datatype Session = Session(
    peer: Option<Peer>,
    connected: bool,
    timer: Option<TimerId>,
    timers: Timers,
    emitted: seq<Notice>,
    rtcPeer: Option<Peer>,
    watching: bool)

  const NEW_SESSION := Session(None, false, None, Timers(map[], map[], 0), [], None, false)

  function AfterFunc(ts: Timers, p: Peer): Timers {
    ts.(armed := ts.armed[ts.next := p], next := ts.next + 1)
  }

  function Stop(ts: Timers, t: Option<TimerId>): Timers {
    if t.None? then ts else ts.(armed := ts.armed - {t.value})
  }

  function Connect(s: Session, p: Peer): Session {
    if s.peer == Some(p) then s
    else s.(peer := Some(p), connected := true, emitted := s.emitted + [Connected])
  }

  function Disconnect(s: Session, p: Option<Peer>, delayed: bool): Session {
    if p.None? || p != s.peer then s
    else if delayed then
      s.(timer := Some(s.timers.next), timers := Stop(AfterFunc(s.timers, p.value), s.timer))
    else
      s.(timer := None, timers := Stop(s.timers, s.timer), connected := false,
         emitted := s.emitted + [Disconnected], peer := None)
  }

  function Destroy(s: Session): Session {
    Disconnect(s, s.peer, false)
  }

  function RunOut(ts: Timers, t: TimerId): Timers
    requires t in ts.armed
  {
    ts.(armed := ts.armed - {t}, fired := ts.fired[t := ts.armed[t]])
  }

  function CallBack(s: Session, t: TimerId): Session
    requires t in s.timers.fired
  {
    Disconnect(s.(timers := s.timers.(fired := s.timers.fired - {t})), Some(s.timers.fired[t]), false)
  }

  function SetWebRTCPeer(s: Session, p: Peer): Session {
    s.(rtcPeer := Some(p))
  }

  function SetWebRTCConnected(s: Session, p: Peer, connected: bool): Session {
    if s.rtcPeer != Some(p) then s
    else s.(watching := connected, rtcPeer := if connected then s.rtcPeer else None)
  }

  datatype Call =
    | Connecting(p: Peer)
    | Disconnecting(gone: Option<Peer>, delayed: bool)
    | Destroying
    | TimerRunsOut(t: TimerId)
    | TimerCallsBack(t: TimerId)
    | NewWebRTCPeer(p: Peer)
    | WebRTCState(p: Peer, up: bool)

  predicate Allowed(s: Session, c: Call) {
    match c
    case TimerRunsOut(t) => t in s.timers.armed
    case TimerCallsBack(t) => t in s.timers.fired
    case _ => true
  }

  function Apply(s: Session, c: Call): Session
    requires Allowed(s, c)
  {
    match c
    case Connecting(p) => Connect(s, p)
    case Disconnecting(gone, delayed) => Disconnect(s, gone, delayed)
    case Destroying => Destroy(s)
    case TimerRunsOut(t) => s.(timers := RunOut(s.timers, t))
    case TimerCallsBack(t) => CallBack(s, t)
    case NewWebRTCPeer(p) => SetWebRTCPeer(s, p)
    case WebRTCState(p, up) => SetWebRTCConnected(s, p, up)
  }

  // ---- the invariant --------------------------------------------------------------------------

  /** Every Disconnected follows directly on a Connected. */
  ghost predicate Alternates(e: seq<Notice>) {
    forall i :: 0 <= i < |e| && e[i] == Disconnected ==> i > 0 && e[i - 1] == Connected
  }

  /** The only timer that can be running is the one the session remembers. */
  ghost predicate TimersOk(ts: Timers, timer: Option<TimerId>) {
    && (forall t :: t in ts.armed ==> t < ts.next && t !in ts.fired && timer == Some(t))
    && (forall t :: t in ts.fired ==> t < ts.next)
    && (timer.Some? ==> timer.value < ts.next)
  }

  ghost predicate SessionOk(s: Session) {
    && (s.connected <==> s.peer.Some?)
    && (s.connected <==> s.emitted != [] && s.emitted[|s.emitted| - 1] == Connected)
    && Alternates(s.emitted)
    && (s.watching ==> s.rtcPeer.Some?)
    && TimersOk(s.timers, s.timer)
  }

  lemma AlternatesAppend(e: seq<Notice>, n: Notice)
    requires Alternates(e) && (n == Disconnected ==> e != [] && e[|e| - 1] == Connected)
    ensures Alternates(e + [n])
  {
  }

  lemma DisconnectKeeps(s: Session, p: Option<Peer>, delayed: bool)
    requires SessionOk(s)
    ensures SessionOk(Disconnect(s, p, delayed))
  {
    if p.Some? && p == s.peer && !delayed {
      AlternatesAppend(s.emitted, Disconnected);
    }
  }

  lemma ApplyKeeps(s: Session, c: Call)
    requires SessionOk(s) && Allowed(s, c)
    ensures SessionOk(Apply(s, c))
  {
    hide Alternates, Disconnect;
    match c
    case Connecting(p) => AlternatesAppend(s.emitted, Connected);
    case Disconnecting(gone, delayed) => DisconnectKeeps(s, gone, delayed);
    case Destroying => DisconnectKeeps(s, s.peer, false);
    case TimerCallsBack(t) =>
      DisconnectKeeps(s.(timers := s.timers.(fired := s.timers.fired - {t})), Some(s.timers.fired[t]), false);
    case _ =>
  }

  // ---- over any run ---------------------------------------------------------------------------

  ghost predicate IsRun(states: seq<Session>, calls: seq<Call>) {
    && |states| == |calls| + 1
    && states[0] == NEW_SESSION
    && forall i :: 0 <= i < |calls| ==> Allowed(states[i], calls[i]) && states[i + 1] == Apply(states[i], calls[i])
  }

  lemma {:induction false} ReachableOk(states: seq<Session>, calls: seq<Call>, n: nat)
    requires IsRun(states, calls) && n < |states|
    ensures SessionOk(states[n])
  {
    if n > 0 {
      hide SessionOk, Apply;
      ReachableOk(states, calls, n - 1);
      ApplyKeeps(states[n - 1], calls[n - 1]);
    } else {
      assert SessionOk(NEW_SESSION);
    }
  }

  /** Connected is what a session is exactly while it has a peer, watching only while it has a WebRTC
      peer, at most one timer runs at a time, and between two notices of a disconnect there is one of a
      connect. */
  lemma ReconnectSafety(states: seq<Session>, calls: seq<Call>, n: nat)
    requires IsRun(states, calls) && n < |states|
    ensures states[n].connected <==> states[n].peer.Some?
    ensures states[n].watching ==> states[n].rtcPeer.Some?
    ensures forall t, u :: t in states[n].timers.armed && u in states[n].timers.armed ==> t == u
    ensures forall i, j :: 0 <= i < j < |states[n].emitted|
              && states[n].emitted[i] == Disconnected && states[n].emitted[j] == Disconnected
              ==> exists k :: i < k < j && states[n].emitted[k] == Connected
  {
    hide Apply, Allowed;
    ReachableOk(states, calls, n);
    var e := states[n].emitted;
    forall i, j | 0 <= i < j < |e| && e[i] == Disconnected && e[j] == Disconnected
      ensures exists k :: i < k < j && e[k] == Connected
    {
      var k := j - 1;
      assert e[k] == Connected;
    }
  }

  // ---- timers ---------------------------------------------------------------------------------

  /** There is a timer that will yet disconnect the peer, if it is still the current one then. */
  ghost predicate Live(ts: Timers, p: Peer) {
    (exists t :: t in ts.armed && ts.armed[t] == p) || (exists t :: t in ts.fired && ts.fired[t] == p)
  }

  ghost predicate CurrentIsLive(s: Session) {
    s.peer.Some? && Live(s.timers, s.peer.value)
  }

  /** A delayed disconnect of the peer that is still current has come since it became current. */
  ghost predicate Dropped(states: seq<Session>, calls: seq<Call>, n: nat)
    requires n <= |calls| < |states|
  {
    && n > 0
    && states[n].peer.Some?
    && states[n].peer == states[n - 1].peer
    && (calls[n - 1] == Disconnecting(states[n].peer, true) || Dropped(states, calls, n - 1))
  }

  /** A peer that is not current, but has a timer left, comes back. */
  ghost predicate ComesBack(s: Session, c: Call) {
    c.Connecting? && s.peer != Some(c.p) && Live(s.timers, c.p)
  }

  /** A timer of a peer that has been replaced changes nothing about the session. */
  lemma ReplacedTimerChangesNothing(s: Session, t: TimerId)
    requires t in s.timers.fired && s.peer != Some(s.timers.fired[t])
    ensures CallBack(s, t) == s.(timers := s.timers.(fired := s.timers.fired - {t}))
  {
  }

  /** After an immediate disconnect no timer is left running. */
  lemma ImmediateStopsTimer(s: Session, p: Option<Peer>)
    requires SessionOk(s) && p.Some? && p == s.peer
    ensures Disconnect(s, p, false).timers.armed == map[]
  {
    var armed := Disconnect(s, p, false).timers.armed;
    assert forall t :: t !in armed;
  }

  lemma StopKeepsOthers(ts: Timers, t: Option<TimerId>, u: TimerId)
    requires u in ts.armed && t != Some(u)
    ensures u in Stop(ts, t).armed && Stop(ts, t).armed[u] == ts.armed[u]
  {
  }

  /** Dropping the current peer leaves a timer for it. */
  lemma DelayedIsLive(s: Session, p: Peer)
    requires SessionOk(s) && s.peer == Some(p)
    ensures CurrentIsLive(Disconnect(s, Some(p), true))
  {
    var s' := Disconnect(s, Some(p), true);
    StopKeepsOthers(AfterFunc(s.timers, p), s.timer, s.timers.next);
    assert s'.timers.armed[s.timers.next] == p;
  }

  lemma RunOutKeepsLive(ts: Timers, t: TimerId, p: Peer)
    requires t in ts.armed && t !in ts.fired
    ensures Live(RunOut(ts, t), p) <==> Live(ts, p)
  {
    var ts' := RunOut(ts, t);
    if u :| u in ts.armed && ts.armed[u] == p {
      assert if u == t then ts'.fired[u] == p else ts'.armed[u] == p;
    }
    if u :| u in ts.fired && ts.fired[u] == p { assert ts'.fired[u] == p; }
    if u :| u in ts'.armed && ts'.armed[u] == p { assert ts.armed[u] == p; }
    if u :| u in ts'.fired && ts'.fired[u] == p {
      assert if u == t then ts.armed[u] == p else ts.fired[u] == p;
    }
  }

  lemma CallBackKeepsLive(s: Session, t: TimerId)
    requires t in s.timers.fired && s.peer.Some? && s.peer != Some(s.timers.fired[t])
    ensures CurrentIsLive(CallBack(s, t)) <==> CurrentIsLive(s)
  {
    ReplacedTimerChangesNothing(s, t);
    var s', p := CallBack(s, t), s.peer.value;
    if u :| u in s.timers.fired && s.timers.fired[u] == p { assert s'.timers.fired[u] == p; }
  }

  /** As long as the peer stays current and no delayed disconnect comes, it has a timer as it had. */
  lemma StepKeepsLive(s: Session, c: Call)
    requires SessionOk(s) && Allowed(s, c) && s.peer.Some? && Apply(s, c).peer == s.peer
    requires c != Disconnecting(s.peer, true)
    ensures CurrentIsLive(Apply(s, c)) <==> CurrentIsLive(s)
  {
    match c
    case TimerRunsOut(t) => RunOutKeepsLive(s.timers, t, s.peer.value);
    case TimerCallsBack(t) => CallBackKeepsLive(s, t);
    case _ =>
  }

  /** A peer that becomes current has a timer only if it comes back. */
  lemma NewPeerIsLiveIff(s: Session, c: Call)
    requires Allowed(s, c) && Apply(s, c).peer.Some? && Apply(s, c).peer != s.peer
    ensures c.Connecting?
    ensures CurrentIsLive(Apply(s, c)) <==> ComesBack(s, c)
  {
  }

  /** At every moment of every run, a current peer that has been dropped has a live timer. */
  lemma {:induction false} DroppedHasLiveTimer(states: seq<Session>, calls: seq<Call>, n: nat)
    requires IsRun(states, calls) && n < |states| && Dropped(states, calls, n)
    ensures CurrentIsLive(states[n])
  {
    hide Apply, Live, SessionOk, CurrentIsLive;
    ReachableOk(states, calls, n - 1);
    var c := calls[n - 1];
    assert states[n] == Apply(states[n - 1], c);
    if c == Disconnecting(states[n].peer, true) {
      DelayedStep(states[n - 1], c);
    } else {
      DroppedHasLiveTimer(states, calls, n - 1);
      StepKeepsLive(states[n - 1], c);
    }
  }

  lemma DelayedStep(s: Session, c: Call)
    requires SessionOk(s) && s.peer.Some? && c == Disconnecting(s.peer, true)
    ensures CurrentIsLive(Apply(s, c))
  {
    DelayedIsLive(s, s.peer.value);
  }

  /** And if no peer ever came back, only such a peer has one. */
  lemma {:induction false} LiveTimerIffDropped(states: seq<Session>, calls: seq<Call>, n: nat)
    requires IsRun(states, calls) && n < |states|
    requires forall i :: 0 <= i < n ==> !ComesBack(states[i], calls[i])
    ensures CurrentIsLive(states[n]) <==> Dropped(states, calls, n)
  {
    if Dropped(states, calls, n) {
      DroppedHasLiveTimer(states, calls, n);
    } else if n > 0 && states[n].peer.Some? {
      hide Apply, Live, SessionOk, CurrentIsLive, ComesBack;
      LiveTimerIffDropped(states, calls, n - 1);
      ReachableOk(states, calls, n - 1);
      var c := calls[n - 1];
      assert states[n] == Apply(states[n - 1], c);
      if states[n].peer == states[n - 1].peer {
        StepKeepsLive(states[n - 1], c);
      } else {
        NewPeerIsLiveIff(states[n - 1], c);
      }
    }
  }

  /** Throughout a run only dropped peers have a live timer, if and only if no peer ever comes back. */
  lemma LiveMeansDroppedIff(states: seq<Session>, calls: seq<Call>, n: nat)
    requires IsRun(states, calls) && n < |states|
    ensures (forall i :: 0 <= i <= n && CurrentIsLive(states[i]) ==> Dropped(states, calls, i))
            <==> (forall i :: 0 <= i < n ==> !ComesBack(states[i], calls[i]))
  {
    hide Apply, Live, CurrentIsLive, ComesBack;
    if forall i :: 0 <= i < n ==> !ComesBack(states[i], calls[i]) {
      forall i | 0 <= i <= n && CurrentIsLive(states[i]) ensures Dropped(states, calls, i) {
        LiveTimerIffDropped(states, calls, i);
      }
    } else {
      var i :| 0 <= i < n && ComesBack(states[i], calls[i]);
      ComingBackIsLive(states[i], calls[i]);
      var j := i + 1;
      assert states[j] == Apply(states[i], calls[i]);
      assert CurrentIsLive(states[j]) && !Dropped(states, calls, j);
    }
  }

  lemma ComingBackIsLive(s: Session, c: Call)
    requires ComesBack(s, c)
    ensures Allowed(s, c) && CurrentIsLive(Apply(s, c)) && Apply(s, c).peer != s.peer
  {
  }

  /** So a timer disconnects a session only if its current peer was dropped. */
  lemma OnlyDroppedIsDisconnected(states: seq<Session>, calls: seq<Call>, n: nat, t: TimerId)
    requires IsRun(states, calls) && n < |states| && t in states[n].timers.fired
    requires forall i :: 0 <= i < n ==> !ComesBack(states[i], calls[i])
    ensures CallBack(states[n], t).emitted != states[n].emitted ==> Dropped(states, calls, n)
  {
    hide IsRun, ComesBack;
    LiveTimerIffDropped(states, calls, n);
  }

  /** The timer is for the peer, and runs or has run out. */
  ghost predicate IsFor(ts: Timers, t: TimerId, p: Peer) {
    (t in ts.armed && ts.armed[t] == p) || (t in ts.fired && ts.fired[t] == p)
  }

  /** Left to itself, the timer runs out, if it has not yet, and calls back. */
  function Rings(s: Session, t: TimerId): Session
    requires t in s.timers.armed || t in s.timers.fired
  {
    CallBack(if t in s.timers.fired then s else s.(timers := RunOut(s.timers, t)), t)
  }

  lemma RingDisconnects(s: Session, t: TimerId, p: Peer)
    requires TimersOk(s.timers, s.timer) && IsFor(s.timers, t, p) && s.peer == Some(p)
    ensures Rings(s, t).peer == None && !Rings(s, t).connected && Rings(s, t).emitted == s.emitted + [Disconnected]
  {
  }

  /** If a peer does come back, each of its old timers takes it down although nobody dropped it. */
  lemma ComingBackIsDisconnected(states: seq<Session>, calls: seq<Call>, n: nat, t: TimerId)
    requires IsRun(states, calls) && n < |calls| && ComesBack(states[n], calls[n])
    requires IsFor(states[n].timers, t, calls[n].p)
    ensures states[n + 1].peer == Some(calls[n].p) && !Dropped(states, calls, n + 1)
    ensures IsFor(states[n + 1].timers, t, calls[n].p) && Rings(states[n + 1], t).peer == None
    ensures Rings(states[n + 1], t).emitted == states[n].emitted + [Connected, Disconnected]
  {
    hide Live, Rings;
    assert states[n + 1] == Apply(states[n], calls[n]);
    DroppedHasLiveTimerIds(states, calls, n + 1);
    RingDisconnects(states[n + 1], t, calls[n].p);
  }

  /** Left to itself, a dropped peer is disconnected: some timer is for it, and once that has run out and
      called back the session is not connected. */
  lemma DroppedWillDisconnect(states: seq<Session>, calls: seq<Call>, n: nat) returns (t: TimerId)
    requires IsRun(states, calls) && n < |states| && Dropped(states, calls, n)
    ensures t in states[n].timers.armed || t in states[n].timers.fired
    ensures Rings(states[n], t).peer == None && !Rings(states[n], t).connected
    ensures Rings(states[n], t).emitted == states[n].emitted + [Disconnected]
  {
    hide IsRun, Dropped, Rings;
    DroppedHasLiveTimer(states, calls, n);
    DroppedHasLiveTimerIds(states, calls, n);
    var s := states[n];
    if u :| u in s.timers.fired && Some(s.timers.fired[u]) == s.peer {
      t := u;
    } else {
      t :| t in s.timers.armed && Some(s.timers.armed[t]) == s.peer;
    }
    RingDisconnects(s, t, s.peer.value);
  }

  lemma DroppedHasLiveTimerIds(states: seq<Session>, calls: seq<Call>, n: nat)
    requires IsRun(states, calls) && n < |states|
    ensures TimersOk(states[n].timers, states[n].timer)
  {
    hide Apply, Allowed;
    ReachableOk(states, calls, n);
  }
}
