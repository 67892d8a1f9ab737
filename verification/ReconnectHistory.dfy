/** A session told by its history: which peers it has at any moment of a run, and what it has announced. */
module ReconnectHistory {
  import opened Options
  import opened ReconnectSpec

  // ---- the WebSocket peer ---------------------------------------------------------------------

  /** The call ends the connection of peer p, should that be the current one: another peer connects, it is
      disconnected at once, or a timer for it calls back. */
  predicate Ends(s: Session, c: Call, p: Peer) {
    match c
    case Connecting(q) => q != p
    case Disconnecting(gone, delayed) => gone == Some(p) && !delayed
    case Destroying => true
    case TimerCallsBack(t) => t in s.timers.fired && s.timers.fired[t] == p
    case _ => false
  }

  /** Peer p has connected in step m, and nothing has ended that before step n. */
  ghost predicate ConnectedSince(states: seq<Session>, calls: seq<Call>, p: Peer, m: nat, n: nat)
    requires n <= |calls| < |states|
  {
    m < n && calls[m] == Connecting(p) && forall k :: m < k < n ==> !Ends(states[k], calls[k], p)
  }

  lemma PeerAfter(s: Session, c: Call, p: Peer)
    requires Allowed(s, c)
    ensures Apply(s, c).peer == Some(p) <==> c == Connecting(p) || (s.peer == Some(p) && !Ends(s, c, p))
  {
  }

  /** A session has a peer exactly if that has connected and nothing has ended it since. */
  lemma {:induction false} PeerIff(states: seq<Session>, calls: seq<Call>, n: nat, p: Peer)
    requires IsRun(states, calls) && n < |states|
    ensures states[n].peer == Some(p) <==> exists m: nat :: ConnectedSince(states, calls, p, m, n)
  {
    hide Apply, Allowed, Ends;
    if n > 0 {
      var b: nat := n - 1;
      PeerIff(states, calls, b, p);
      assert states[b + 1] == Apply(states[b], calls[b]) && Allowed(states[b], calls[b]);
      PeerAfter(states[b], calls[b], p);
      if calls[b] == Connecting(p) {
        assert ConnectedSince(states, calls, p, b, n);
      } else if Ends(states[b], calls[b], p) {
        assert forall m: nat :: !ConnectedSince(states, calls, p, m, n);
      } else {
        assert forall m: nat :: ConnectedSince(states, calls, p, m, n) <==> ConnectedSince(states, calls, p, m, b);
      }
    }
  }

  /** What the step announces: a peer that was not current connects, or the current one ends without another
      in its place. */
  function Announced(s: Session, c: Call): seq<Notice> {
    match c
    case Connecting(p) => if s.peer == Some(p) then [] else [Connected]
    case _ => if s.peer.Some? && Ends(s, c, s.peer.value) then [Disconnected] else []
  }

  function AllAnnounced(states: seq<Session>, calls: seq<Call>, n: nat): seq<Notice>
    requires n <= |calls| < |states|
  {
    if n == 0 then [] else AllAnnounced(states, calls, n - 1) + Announced(states[n - 1], calls[n - 1])
  }

  lemma AnnouncedAfter(s: Session, c: Call)
    requires Allowed(s, c)
    ensures Apply(s, c).emitted == s.emitted + Announced(s, c)
  {
  }

  /** After any run exactly that has been announced, in order. */
  lemma {:induction false} AnnouncedIs(states: seq<Session>, calls: seq<Call>, n: nat)
    requires IsRun(states, calls) && n < |states|
    ensures states[n].emitted == AllAnnounced(states, calls, n)
  {
    hide Apply, Allowed, Announced;
    if n > 0 {
      AnnouncedIs(states, calls, n - 1);
      assert states[n - 1 + 1] == Apply(states[n - 1], calls[n - 1]) && Allowed(states[n - 1], calls[n - 1]);
      AnnouncedAfter(states[n - 1], calls[n - 1]);
    }
  }

  // ---- the WebRTC peer ------------------------------------------------------------------------

  /** WebRTC peer p has been set in step m, and neither another since, nor has it disconnected. */
  ghost predicate SetSince(calls: seq<Call>, p: Peer, m: nat, n: nat)
    requires n <= |calls|
  {
    m < n && calls[m] == NewWebRTCPeer(p)
    && forall k :: m < k < n ==>
         (calls[k].NewWebRTCPeer? ==> calls[k].p == p) && calls[k] != WebRTCState(p, false)
  }

  lemma WebRTCPeerAfter(s: Session, c: Call, p: Peer)
    requires Allowed(s, c)
    ensures Apply(s, c).rtcPeer == Some(p)
            <==> c == NewWebRTCPeer(p)
                 || (s.rtcPeer == Some(p) && (c.NewWebRTCPeer? ==> c.p == p) && c != WebRTCState(p, false))
  {
  }

  lemma {:induction false} WebRTCPeerIff(states: seq<Session>, calls: seq<Call>, n: nat, p: Peer)
    requires IsRun(states, calls) && n < |states|
    ensures states[n].rtcPeer == Some(p) <==> exists m: nat :: SetSince(calls, p, m, n)
  {
    hide Apply, Allowed;
    if n > 0 {
      var b: nat := n - 1;
      WebRTCPeerIff(states, calls, b, p);
      assert states[b + 1] == Apply(states[b], calls[b]) && Allowed(states[b], calls[b]);
      WebRTCPeerAfter(states[b], calls[b], p);
      if calls[b] == NewWebRTCPeer(p) {
        assert SetSince(calls, p, b, n);
      } else if calls[b].NewWebRTCPeer? || calls[b] == WebRTCState(p, false) {
        assert forall m: nat :: !SetSince(calls, p, m, n);
      } else {
        assert forall m: nat :: SetSince(calls, p, m, n) <==> SetSince(calls, p, m, b);
      }
    }
  }

  /** The step tells of the current WebRTC peer that it is connected, or that it is not. */
  predicate TellsCurrent(s: Session, c: Call, up: bool) {
    c.WebRTCState? && c.up == up && s.rtcPeer == Some(c.p)
  }

  ghost predicate WatchingSince(states: seq<Session>, calls: seq<Call>, m: nat, n: nat)
    requires n <= |calls| < |states|
  {
    m < n && TellsCurrent(states[m], calls[m], true)
    && forall k :: m < k < n ==> !TellsCurrent(states[k], calls[k], false)
  }

  lemma WatchingAfter(s: Session, c: Call)
    requires Allowed(s, c)
    ensures Apply(s, c).watching <==> TellsCurrent(s, c, true) || (s.watching && !TellsCurrent(s, c, false))
  {
  }

  /** A session watches exactly if the peer that was current then has said that it is connected, and none that
      was current has since said that it is not. */
  lemma {:induction false} WatchingIff(states: seq<Session>, calls: seq<Call>, n: nat)
    requires IsRun(states, calls) && n < |states|
    ensures states[n].watching <==> exists m: nat :: WatchingSince(states, calls, m, n)
  {
    hide Apply, Allowed, TellsCurrent;
    if n > 0 {
      var b: nat := n - 1;
      WatchingIff(states, calls, b);
      assert states[b + 1] == Apply(states[b], calls[b]) && Allowed(states[b], calls[b]);
      WatchingAfter(states[b], calls[b]);
      if TellsCurrent(states[b], calls[b], true) {
        assert WatchingSince(states, calls, b, n);
      } else if TellsCurrent(states[b], calls[b], false) {
        assert forall m: nat :: !WatchingSince(states, calls, m, n);
      } else {
        assert forall m: nat :: WatchingSince(states, calls, m, n) <==> WatchingSince(states, calls, m, b);
      }
    }
  }

  // ---- timers ---------------------------------------------------------------------------------

  /** The step drops the current peer p with a delay. */
  predicate Drops(s: Session, c: Call, p: Peer) {
    c == Disconnecting(Some(p), true) && s.peer == Some(p)
  }

  /** The step stops the timer that the session remembers: it drops the current peer again, or ends it
      otherwise than by another that takes its place. */
  predicate StopsTimer(s: Session, c: Call) {
    && s.peer.Some?
    && (Drops(s, c, s.peer.value) || (!c.Connecting? && Ends(s, c, s.peer.value)))
  }

  lemma ArmedAfter(s: Session, c: Call, t: TimerId, p: Peer)
    requires SessionOk(s) && Allowed(s, c)
    ensures t in Apply(s, c).timers.armed && Apply(s, c).timers.armed[t] == p
            <==> (t == s.timers.next && Drops(s, c, p))
                 || (t in s.timers.armed && s.timers.armed[t] == p && c != TimerRunsOut(t) && !StopsTimer(s, c))
  {
    hide Alternates;
  }

  lemma FiredAfter(s: Session, c: Call, t: TimerId, p: Peer)
    requires Allowed(s, c)
    ensures t in Apply(s, c).timers.fired && Apply(s, c).timers.fired[t] == p
            <==> (c == TimerRunsOut(t) && s.timers.armed[t] == p)
                 || (t in s.timers.fired && s.timers.fired[t] == p && c != TimerCallsBack(t) && c != TimerRunsOut(t))
  {
  }

  /** Timer t has been started for peer p in step m, and has neither been stopped since nor run out. */
  ghost predicate RunsSince(states: seq<Session>, calls: seq<Call>, t: TimerId, p: Peer, m: nat, n: nat)
    requires n <= |calls| < |states|
  {
    && m < n && Drops(states[m], calls[m], p) && states[m].timers.next == t
    && forall k :: m < k < n ==> calls[k] != TimerRunsOut(t) && !StopsTimer(states[k], calls[k])
  }

  ghost predicate IsArmed(s: Session, t: TimerId, p: Peer) {
    t in s.timers.armed && s.timers.armed[t] == p
  }

  lemma ArmedStep(s: Session, c: Call, t: TimerId, p: Peer)
    requires SessionOk(s) && Allowed(s, c)
    ensures IsArmed(Apply(s, c), t, p)
            <==> (t == s.timers.next && Drops(s, c, p))
                 || (IsArmed(s, t, p) && c != TimerRunsOut(t) && !StopsTimer(s, c))
    ensures t == s.timers.next ==> !IsArmed(s, t, p)
  {
    hide Apply, Allowed, Alternates;
    ArmedAfter(s, c, t, p);
  }

  /** A timer runs exactly if a delayed disconnect of the peer that was current then has started it, and
      since then no other has, nothing has ended the current peer without another in its place, and it has not
      run out. */
  lemma {:induction false} TimerRunsIff(states: seq<Session>, calls: seq<Call>, n: nat, t: TimerId, p: Peer)
    requires IsRun(states, calls) && n < |states|
    ensures IsArmed(states[n], t, p) <==> exists m: nat :: RunsSince(states, calls, t, p, m, n)
  {
    hide Apply, Allowed, Drops, StopsTimer, IsArmed, SessionOk;
    if n > 0 {
      var b: nat := n - 1;
      TimerRunsIff(states, calls, b, t, p);
      ReachableOk(states, calls, b);
      assert states[b + 1] == Apply(states[b], calls[b]) && Allowed(states[b], calls[b]);
      ArmedStep(states[b], calls[b], t, p);
      if states[b].timers.next == t && Drops(states[b], calls[b], p) {
        assert RunsSince(states, calls, t, p, b, n);
      } else if calls[b] == TimerRunsOut(t) || StopsTimer(states[b], calls[b]) {
        assert forall m: nat :: !RunsSince(states, calls, t, p, m, n);
      } else {
        assert forall m: nat :: RunsSince(states, calls, t, p, m, n) <==> RunsSince(states, calls, t, p, m, b);
      }
    } else {
      NoTimerYet(states[0], t, p);
    }
  }

  lemma NoTimerYet(s: Session, t: TimerId, p: Peer)
    requires s == NEW_SESSION
    ensures !IsArmed(s, t, p)
  {
  }
}
