/** Sessions, their timers and their manager, as objects that change in place. */
module Sessions {
  import opened Options
  import opened ManagerSpec
  import Spec = ReconnectSpec

  /** The timers one session has started. */
  class Timers {
    var armed: map<Spec.TimerId, Spec.Peer>
    var fired: map<Spec.TimerId, Spec.Peer>
    var next: Spec.TimerId

    ghost function View(): Spec.Timers
      reads this
    {
      Spec.Timers(armed, fired, next)
    }

    constructor ()
      ensures View() == Spec.NEW_SESSION.timers
    {
      armed, fired, next := map[], map[], 0;
    }

    method AfterFunc(p: Spec.Peer) returns (t: Spec.TimerId)
      modifies this
      ensures View() == Spec.AfterFunc(old(View()), p) && t == old(next)
    {
      t := next;
      armed, next := armed[t := p], next + 1;
    }

    method Stop(t: Spec.TimerId)
      modifies this
      ensures View() == Spec.Stop(old(View()), Some(t))
    {
      armed := armed - {t};
    }

    method RunOut(t: Spec.TimerId)
      requires t in armed
      modifies this
      ensures View() == Spec.RunOut(old(View()), t)
    {
      fired, armed := fired[t := armed[t]], armed - {t};
    }
  }

  class Session {
    const id: Id
    const token: Token
    const timers: Timers
    var profile: Profile
    var websocketPeer: Option<Spec.Peer>
    var isConnected: bool
    var wsDelayedTimer: Option<Spec.TimerId>
    var emitted: seq<Spec.Notice>
    var webrtcPeer: Option<Spec.Peer>
    var isWatching: bool

    ghost function View(): Spec.Session
      reads this, timers
    {
      Spec.Session(websocketPeer, isConnected, wsDelayedTimer, timers.View(), emitted, webrtcPeer, isWatching)
    }

    /** It is connected just while it has a peer, and watches only while it has a WebRTC peer. */
    ghost predicate Settled()
      reads this`websocketPeer, this`isConnected, this`webrtcPeer, this`isWatching
    {
      (isConnected <==> websocketPeer.Some?) && (isWatching ==> webrtcPeer.Some?)
    }

    ghost function AsMember(): Member
      reads this`profile, this`isConnected, this`webrtcPeer, this`isWatching
    {
      Member(token, profile, isConnected, webrtcPeer, isWatching)
    }

    constructor (id: Id, token: Token, profile: Profile)
      ensures this.id == id && this.token == token && this.profile == profile
      ensures View() == Spec.NEW_SESSION && Settled() && fresh(timers) && AsMember() == NewMember(token, profile)
    {
      this.id, this.token, this.profile := id, token, profile;
      websocketPeer, isConnected, wsDelayedTimer, emitted := None, false, None, [];
      webrtcPeer, isWatching := None, false;
      timers := new Timers();
    }

    method ConnectWebSocketPeer(p: Spec.Peer)
      modifies this`websocketPeer, this`isConnected, this`emitted
      ensures View() == Spec.Connect(old(View()), p)
      ensures websocketPeer == Some(p)
      ensures isConnected == (old(websocketPeer) == Some(p) ==> old(isConnected))
      ensures old(Settled()) ==> Settled()
    {
      var isCurrentPeer := websocketPeer == Some(p);
      websocketPeer := Some(p);
      if isCurrentPeer {
        return;
      }
      isConnected := true;
      emitted := emitted + [Spec.Connected];
    }

    /** Answers whether the session has been disconnected, which is what listeners are told. */
    method DisconnectWebSocketPeer(p: Option<Spec.Peer>, delayed: bool) returns (ended: bool)
      modifies this`websocketPeer, this`isConnected, this`wsDelayedTimer, this`emitted, timers
      ensures View() == Spec.Disconnect(old(View()), p, delayed)
      ensures ended <==> p.Some? && p == old(websocketPeer) && !delayed
      ensures ended ==> emitted == old(emitted) + [Spec.Disconnected]
      ensures ended ==> !isConnected && websocketPeer == None
      ensures ended || (emitted == old(emitted) && isConnected == old(isConnected)
                        && websocketPeer == old(websocketPeer))
      ensures old(Settled()) ==> Settled()
    {
      if p.None? || p != websocketPeer {
        return false;
      }
      var timer := None;
      if delayed {
        var t := timers.AfterFunc(p.value);
        timer := Some(t);
      }
      if wsDelayedTimer.Some? {
        timers.Stop(wsDelayedTimer.value);
      }
      wsDelayedTimer := timer;
      if delayed {
        return false;
      }
      isConnected := false;
      emitted := emitted + [Spec.Disconnected];
      websocketPeer := None;
      ended := true;
    }

    method DestroyWebSocketPeer() returns (ended: bool)
      modifies this`websocketPeer, this`isConnected, this`wsDelayedTimer, this`emitted, timers
      ensures View() == Spec.Destroy(old(View()))
      ensures ended <==> old(websocketPeer).Some?
      ensures websocketPeer == None && (ended ==> !isConnected) && (!ended ==> isConnected == old(isConnected))
      ensures old(Settled()) ==> Settled()
    {
      ended := DisconnectWebSocketPeer(websocketPeer, false);
    }

    /** The function of a timer that has run out. */
    method TimerCallsBack(t: Spec.TimerId) returns (ended: bool)
      requires t in timers.fired
      modifies this`websocketPeer, this`isConnected, this`wsDelayedTimer, this`emitted, timers
      ensures View() == Spec.CallBack(old(View()), t)
      ensures ended <==> old(websocketPeer) == Some(old(timers.fired[t]))
      ensures ended ==> emitted == old(emitted) + [Spec.Disconnected]
      ensures ended ==> !isConnected && websocketPeer == None
      ensures ended || (emitted == old(emitted) && isConnected == old(isConnected)
                        && websocketPeer == old(websocketPeer))
      ensures old(Settled()) ==> Settled()
    {
      var p := timers.fired[t];
      timers.fired := timers.fired - {t};
      ended := DisconnectWebSocketPeer(Some(p), false);
    }

    method SetWebRTCPeer(p: Spec.Peer)
      modifies this`webrtcPeer
      ensures View() == Spec.SetWebRTCPeer(old(View()), p)
      ensures webrtcPeer == Some(p)
      ensures old(Settled()) ==> Settled()
    {
      webrtcPeer := Some(p);
    }

    method SetWebRTCConnected(p: Spec.Peer, connected: bool)
      modifies this`webrtcPeer, this`isWatching
      ensures View() == Spec.SetWebRTCConnected(old(View()), p, connected)
      ensures if old(webrtcPeer) != Some(p) then isWatching == old(isWatching) && webrtcPeer == old(webrtcPeer)
              else isWatching == connected && webrtcPeer == if connected then old(webrtcPeer) else None
      ensures old(Settled()) ==> Settled()
    {
      if Some(p) != webrtcPeer {
        return;
      }
      isWatching := connected;
      if connected {
        return;
      }
      webrtcPeer := None;
    }
  }

  class SessionManager {
    var tokens: map<Token, Id>
    var sessions: map<Id, Session>
    var hostId: Option<Id>
    var settings: Settings
    const apiToken: Option<Token>
    var file: File
    var effects: seq<Effect>          // what other components have been asked to do

    ghost function View(): Manager
      reads this, sessions.Values`profile, sessions.Values`isConnected,
            sessions.Values`webrtcPeer, sessions.Values`isWatching
    {
      Manager(tokens, Members(), hostId, settings, apiToken, file, effects)
    }

    ghost function Members(): (members: map<Id, Member>)
      reads this`sessions, sessions.Values`profile, sessions.Values`isConnected,
            sessions.Values`webrtcPeer, sessions.Values`isWatching
      ensures members.Keys == sessions.Keys
    {
      map id | id in sessions :: sessions[id].AsMember()
    }

    /** Every session is filed under its id, and is connected while it has a peer. */
    ghost predicate Valid()
      reads this`sessions, sessions.Values`websocketPeer, sessions.Values`isConnected,
            sessions.Values`webrtcPeer, sessions.Values`isWatching
    {
      forall id :: id in sessions ==>
        sessions[id].id == id && sessions[id].Settled()
    }

    ghost predicate Has(session: Session)
      reads this`sessions
    {
      session.id in sessions && sessions[session.id] == session
    }

    constructor (settings: Settings, apiToken: Option<Token>, file: File)
      ensures Valid() && View() == New(settings, apiToken, file)
      ensures forall id :: id in sessions ==> fresh(sessions[id])
    {
      tokens, sessions, hostId, effects := map[], map[], None, [];
      this.settings, this.apiToken, this.file := settings, apiToken, file;
      new;
      Load();
    }

    lemma MembersAt()
      ensures forall id :: id in sessions ==> Members()[id] == sessions[id].AsMember()
    {
    }

    lemma MembersAre(members: map<Id, Member>)
      requires members.Keys == sessions.Keys && forall id :: id in sessions ==> members[id] == sessions[id].AsMember()
      ensures Members() == members
    {
    }

    lemma NoMembers()
      requires sessions == map[]
      ensures Members() == map[]
    {
    }

    /** File a new session. */
    method Insert(id: Id, token: Token, profile: Profile) returns (session: Session)
      requires Valid()
      modifies this`tokens, this`sessions
      ensures Valid() && fresh(session) && sessions == old(sessions)[id := session]
      ensures View() == ManagerSpec.Insert(old(View()), id, token, profile)
    {
      ghost var m := View();
      session := new Session(id, token, profile);
      tokens := tokens[token := id];
      sessions := sessions[id := session];
      assert Members() == m.sessions[id := NewMember(token, profile)];
    }

    method Load()
      requires Valid() && tokens == map[] && sessions == map[] && hostId == None && effects == []
      modifies this`tokens, this`sessions
      ensures Valid() && View() == New(settings, apiToken, file)
      ensures forall id :: id in sessions ==> fresh(sessions[id])
    {
      hide Members, LoadAll, ManagerSpec.Insert;
      ghost var empty := View();
      assert Members() == map[] by { NoMembers(); }
      assert empty == Empty(settings, apiToken, file);
      if !file.Holding? {
        return;
      }
      var records := file.records;
      var i := 0;
      LoadNone(empty);
      assert records[..0] == [];
      while i < |records|
        invariant 0 <= i <= |records| && Valid()
        invariant View() == LoadAll(empty, records[..i])
        invariant forall id :: id in sessions ==> fresh(sessions[id])
      {
        var r := records[i];
        var session := Insert(r.id, r.token, r.profile);
        LoadOneMore(empty, records[..i], r);
        assert records[..i + 1] == records[..i] + [r];
        i := i + 1;
      }
      assert records[..i] == records;
    }

    /** Write all sessions to the file, in whatever order the map is visited, which `order` records. */
    method Save() returns (ghost order: seq<Id>)
      requires Valid()
      modifies this`file
      ensures Lists(order, sessions.Keys)
      ensures View() == ManagerSpec.Save(old(View()), order)
    {
      order := [];
      var records := [];
      var rest := sessions.Keys;
      ghost var members := Members();
      while rest != {}
        invariant rest <= sessions.Keys
        invariant Lists(order, sessions.Keys - rest)
        invariant records == Records(members, order)
        decreases rest
      {
        var id :| id in rest;
        rest := rest - {id};
        var session := sessions[id];
        records := records + [Record(session.id, session.token, session.profile)];
        order := order + [id];
      }
      if !file.NotConfigured? {
        file := Holding(records);
      }
    }

    method Create(id: Id, token: Token, profile: Profile)
      returns (result: Created, session: Session?, ghost order: seq<Id>)
      requires Valid()
      modifies this`tokens, this`sessions, this`file
      ensures Valid()
      ensures result == CanCreate(old(View()), id, token)
      ensures result.Ok? ==> session != null && fresh(session) && sessions == old(sessions)[id := session]
                             && Lists(order, sessions.Keys)
      ensures result.Ok? ==> View() == ManagerSpec.Create(old(View()), id, token, profile, order)
      ensures !result.Ok? ==> View() == old(View()) && session == null
    {
      if id in sessions {
        return SessionAlreadyExists, null, [];
      }
      if token in tokens {
        return TokenAlreadyExists, null, [];
      }
      session := Insert(id, token, profile);
      order := Save();
      result := Ok;
    }

    method GetByToken(token: Token) returns (found: Found, session: Session?)
      requires Valid()
      ensures found == ManagerSpec.GetByToken(View(), token)
      ensures found.Session? ==> session != null && Has(session) && session.id == found.id
      ensures !found.Session? ==> session == null
    {
      if token in tokens {
        var id := tokens[token];
        if id in sessions {
          return Found.Session(id), sessions[id];
        }
        return NoSession, null;
      }
      if apiToken == Some(token) {
        return ApiSession, null;
      }
      return NoSession, null;
    }

    // ---- host -----------------------------------------------------------------------------------

    method SetHost(id: Id)
      modifies this`hostId
      ensures hostId == Some(id)
    {
      hostId := Some(id);
    }

    method ClearHost()
      modifies this`hostId
      ensures hostId == Some("")
    {
      SetHost("");
    }

    predicate IsHost(session: Session)
      reads this`hostId
    {
      hostId == Some(session.id)
    }

    method GetHost() returns (host: Session?)
      requires Valid()
      ensures host == null <==> ManagerSpec.GetHost(View()).None?
      ensures host != null ==> Has(host) && ManagerSpec.GetHost(View()) == Some(host.id)
    {
      if hostId.None? || hostId.value == "" || hostId.value !in sessions {
        return null;
      }
      host := sessions[hostId.value];
    }

    predicate PrivateModeEnabled(session: Session)
      reads this`settings, session`profile
    {
      settings.privateMode && !session.profile.isAdmin
    }

    method ControlRelease(session: Session) returns (result: Control)
      requires Valid() && Has(session)
      modifies this`hostId, this`effects
      ensures (View(), result) == ManagerSpec.ControlRelease(old(View()), session.id)
    {
      if !session.profile.canHost || PrivateModeEnabled(session) {
        return NotAllowedToHost;
      }
      if !IsHost(session) {
        return NotTheHost;
      }
      effects := effects + [KeysReset];
      ClearHost();
      assert Members() == old(Members());
      result := Done;
    }

    method ControlRequest(session: Session) returns (result: Control)
      requires Valid() && Has(session)
      modifies this`hostId
      ensures (View(), result) == ManagerSpec.ControlRequest(old(View()), session.id)
    {
      if !session.profile.canHost || PrivateModeEnabled(session) {
        return NotAllowedToHost;
      }
      if IsHost(session) {
        return AlreadyTheHost;
      }
      if settings.lockedControls && !session.profile.isAdmin {
        return NotAllowedToHost;
      }
      if !settings.implicitHosting {
        var host := GetHost();
        if host != null {
          return AlreadyHosted;
        }
      }
      SetHost(session.id);
      assert Members() == old(Members());
      result := Done;
    }

    // ---- connections ----------------------------------------------------------------------------

    method Connect(session: Session, p: Spec.Peer)
      requires Valid() && Has(session)
      modifies session`websocketPeer, session`isConnected, session`emitted
      ensures Valid()
      ensures session.View() == Spec.Connect(old(session.View()), p)
      ensures View() == SetConnected(old(View()), session.id, true)
    {
      hide Spec.Connect, Members, Session.Settled;
      MembersAt();
      session.ConnectWebSocketPeer(p);
      MembersAre(old(Members())[session.id := session.AsMember()]);
    }

    /** What the message handler does when it is told. */
    method SessionDisconnected(session: Session)
      modifies this`hostId, this`effects
      ensures View() == ManagerSpec.SessionDisconnected(old(View()), session.id)
    {
      hide Members;
      if IsHost(session) {
        effects := effects + [KeysReset];
        ClearHost();
      }
    }

    method Disconnect(session: Session, p: Option<Spec.Peer>, delayed: bool) returns (ended: bool)
      requires Valid() && Has(session)
      modifies this`hostId, this`effects, session`websocketPeer,
               session`isConnected, session`wsDelayedTimer, session`emitted, session.timers
      ensures Valid()
      ensures session.View() == Spec.Disconnect(old(session.View()), p, delayed)
      ensures ended <==> p.Some? && p == old(session.websocketPeer) && !delayed
      ensures View() == if ended then Disconnected(old(View()), session.id) else old(View())
    {
      hide Spec.Disconnect, Members, Session.Settled;
      MembersAt();
      ended := session.DisconnectWebSocketPeer(p, delayed);
      assert Valid();
      if ended {
        MembersAre(old(Members())[session.id := session.AsMember()]);
        SessionDisconnected(session);
      } else {
        MembersAre(old(Members()));
      }
    }

    method TimerCallsBack(session: Session, t: Spec.TimerId) returns (ended: bool)
      requires Valid() && Has(session) && t in session.timers.fired
      modifies this`hostId, this`effects, session`websocketPeer,
               session`isConnected, session`wsDelayedTimer, session`emitted, session.timers
      ensures Valid()
      ensures session.View() == Spec.CallBack(old(session.View()), t)
      ensures ended <==> old(session.websocketPeer) == Some(old(session.timers.fired[t]))
      ensures View() == if ended then Disconnected(old(View()), session.id) else old(View())
    {
      hide Spec.Disconnect, Spec.CallBack, Members, Session.Settled;
      MembersAt();
      ended := session.TimerCallsBack(t);
      assert Valid();
      if ended {
        MembersAre(old(Members())[session.id := session.AsMember()]);
        SessionDisconnected(session);
      } else {
        MembersAre(old(Members()));
      }
    }

    method SetWebRTCPeer(session: Session, p: Peer)
      requires Valid() && Has(session)
      modifies session`webrtcPeer
      ensures Valid()
      ensures session.View() == Spec.SetWebRTCPeer(old(session.View()), p)
      ensures View() == SetPeer(old(View()), session.id, p)
    {
      hide Members, Session.Settled;
      MembersAt();
      session.SetWebRTCPeer(p);
      MembersAre(old(Members())[session.id := session.AsMember()]);
    }

    method SetWebRTCConnected(session: Session, p: Peer, connected: bool)
      requires Valid() && Has(session)
      modifies session`webrtcPeer, session`isWatching
      ensures Valid()
      ensures session.View() == Spec.SetWebRTCConnected(old(session.View()), p, connected)
      ensures View() == PeerState(old(View()), session.id, p, connected)
    {
      hide Members, Session.Settled, Spec.SetWebRTCConnected;
      MembersAt();
      session.SetWebRTCConnected(p, connected);
      MembersAre(old(Members())[session.id := session.AsMember()]);
    }

    // ---- profiles, deletion, settings -----------------------------------------------------------

    method Destroy(session: Session)
      requires Valid() && Has(session) && session.isConnected
      modifies this`hostId, this`effects, session`websocketPeer,
               session`isConnected, session`wsDelayedTimer, session`emitted, session.timers
      ensures Valid()
      ensures session.View() == Spec.Destroy(old(session.View()))
      ensures View() == Disconnected(old(View()), session.id)
    {
      hide Spec.Disconnect, Spec.Destroy, Members;
      MembersAt();
      var ended := session.DestroyWebSocketPeer();
      assert Valid();
      MembersAre(old(Members())[session.id := session.AsMember()]);
      if ended {
        SessionDisconnected(session);
      }
    }

    method ProfileChanged(session: Session)
      requires Valid() && Has(session)
      modifies this`hostId, this`effects, session`websocketPeer,
               session`isConnected, session`wsDelayedTimer, session`emitted, session.timers
      ensures Valid()
      ensures View() == ManagerSpec.ProfileChanged(old(View()), session.id)
    {
      hide Spec.Disconnect, Spec.Destroy, Members, Disconnected, ManagerSpec.PauseIfAny, ManagerSpec.RightsChanged,
        Session.Settled;
      MemberOf(session);
      RightsChanged(session);
      if (!session.profile.canConnect || !session.profile.canLogin) && session.isConnected {
        Destroy(session);
      }
      PauseIfAny(session.webrtcPeer, PrivateModeEnabled(session));
    }

    method RightsChanged(session: Session)
      requires Valid() && Has(session)
      modifies this`hostId, this`effects
      ensures View() == ManagerSpec.RightsChanged(old(View()), session.id)
    {
      hide Members, ManagerSpec.DestroyIfWatching, Session.Settled;
      MemberOf(session);
      if !session.profile.canHost && IsHost(session) {
        ClearHost();
      }
      if !session.profile.canConnect || !session.profile.canLogin || !session.profile.canWatch {
        DestroyIfWatching(session);
      }
    }

    method DestroyIfWatching(session: Session)
      modifies this`effects
      ensures View() == ManagerSpec.DestroyIfWatching(old(View()), session.AsMember())
    {
      hide Members;
      if session.isWatching {
        effects := effects + [PeerDestroyed(session.webrtcPeer)];
      }
    }

    method PauseIfAny(p: Option<Peer>, paused: bool)
      modifies this`effects
      ensures View() == ManagerSpec.PauseIfAny(old(View()), p, paused)
    {
      hide Members;
      if p.Some? {
        effects := effects + [PeerPaused(p.value, paused)];
      }
    }

    lemma MemberOf(session: Session)
      requires Has(session)
      ensures session.id in Members() && Members()[session.id] == session.AsMember()
    {
    }

    /** Take a session out of the indexes. */
    method Remove(session: Session)
      requires Valid() && Has(session)
      modifies this`tokens, this`sessions
      ensures Valid() && sessions == old(sessions) - {session.id} && session !in sessions.Values
      ensures View() == ManagerSpec.Remove(old(View()), session.id)
    {
      tokens := tokens - {session.token};
      sessions := sessions - {session.id};
      assert Members() == old(Members()) - {session.id};
    }

    /** Disconnect a session that is no longer filed. */
    method DestroyRemoved(session: Session)
      requires Valid() && session !in sessions.Values && session.isConnected && session.Settled()
      modifies this`hostId, this`effects, session`websocketPeer,
               session`isConnected, session`wsDelayedTimer, session`emitted, session.timers
      ensures Valid()
      ensures session.View() == Spec.Destroy(old(session.View()))
      ensures View() == ManagerSpec.SessionDisconnected(old(View()), session.id)
    {
      hide Spec.Disconnect, Spec.Destroy, Members;
      var ended := session.DestroyWebSocketPeer();
      assert Valid();
      if ended {
        SessionDisconnected(session);
      }
    }

    method Leave(session: Session)
      requires Valid() && session !in sessions.Values && session.Settled()
      modifies this`hostId, this`effects, session`websocketPeer,
               session`isConnected, session`wsDelayedTimer, session`emitted, session.timers
      ensures Valid()
      ensures View() == ManagerSpec.Leave(old(View()), session.id, old(session.AsMember()))
    {
      hide Members, Spec.Destroy, Spec.Disconnect, ManagerSpec.SessionDisconnected;
      if session.isConnected {
        DestroyRemoved(session);
      }
      DestroyIfWatching(session);
    }

    method SetProfile(session: Session, profile: Profile)
      requires Valid() && Has(session)
      modifies session`profile
      ensures Valid() && session.profile == profile
      ensures View() == WithProfile(old(View()), session.id, profile)
    {
      session.profile := profile;
      assert Members() == WithProfile(old(View()), session.id, profile).sessions;
    }

    method Update(id: Id, profile: Profile) returns (found: bool, ghost order: seq<Id>)
      requires Valid()
      modifies this`hostId, this`effects, this`file,
               sessions.Values, set id | id in sessions :: sessions[id].timers
      ensures Valid()
      ensures found <==> id in sessions
      ensures found ==> Lists(order, sessions.Keys) && View() == ManagerSpec.Update(old(View()), id, profile, order)
      ensures !found ==> View() == old(View())
    {
      hide Spec.Disconnect, ManagerSpec.ProfileChanged, WithProfile, Members, Records, Lists;
      if id !in sessions {
        return false, [];
      }
      var session := sessions[id];
      SetProfile(session, profile);
      order := Save();
      ProfileChanged(session);
      found := true;
    }

    method Delete(id: Id) returns (found: bool, ghost order: seq<Id>)
      requires Valid()
      modifies this, sessions.Values, set id | id in sessions :: sessions[id].timers
      ensures Valid()
      ensures found <==> id in old(sessions)
      ensures sessions == old(sessions) - {id}
      ensures found ==> Lists(order, sessions.Keys) && View() == ManagerSpec.Delete(old(View()), id, order)
      ensures !found ==> View() == old(View())
    {
      hide Spec.Disconnect, Spec.Destroy, ManagerSpec.Remove, ManagerSpec.Leave, Members, Records, Lists;
      if id !in sessions {
        return false, [];
      }
      var session := sessions[id];
      assert View().sessions[id] == session.AsMember() by { MemberOf(session); }
      Remove(session);
      Leave(session);
      order := Save();
      found := true;
    }

    method UpdateSettings(new_: Settings) returns (ghost order: seq<Id>)
      requires Valid()
      modifies this`settings, this`hostId, this`effects
      ensures Valid() && Lists(order, sessions.Keys)
      ensures View() == ManagerSpec.UpdateSettings(old(View()), new_, order)
    {
      hide ManagerSpec.VisitAll, Members, Lists, NonAdminHosts, Session.Settled;
      var before := settings;
      settings := new_;
      assert View() == old(View()).(settings := new_);
      if before.privateMode != new_.privateMode {
        order := VisitAll();
      } else {
        order := SomeOrder();
      }
      if before.lockedControls != new_.lockedControls && new_.lockedControls {
        ReleaseNonAdmin();
      }
    }

    /** If the host is not an admin, it must release control. */
    method ReleaseNonAdmin()
      requires Valid()
      modifies this`hostId
      ensures View() == if NonAdminHosts(old(View())) then ManagerSpec.ClearHost(old(View())) else old(View())
    {
      hide Members;
      var host := GetHost();
      if host != null {
        MemberOf(host);
        if !host.profile.isAdmin {
          ClearHost();
        }
      }
    }

    /** Whoever has private mode enabled must release control, and its WebRTC peer is paused; other peers
        are unpaused. */
    method VisitAll() returns (ghost order: seq<Id>)
      requires Valid()
      modifies this`hostId, this`effects
      ensures Lists(order, sessions.Keys)
      ensures View() == ManagerSpec.VisitAll(old(View()), order)
    {
      hide Members, VisitOne;
      ghost var m := View();
      order := [];
      var rest := sessions.Keys;
      while rest != {}
        invariant rest <= sessions.Keys
        invariant Lists(order, sessions.Keys - rest)
        invariant Members() == m.sessions
        invariant View() == ManagerSpec.VisitAll(m, order)
        decreases rest
      {
        var id :| id in rest;
        rest := rest - {id};
        Visit(sessions[id]);
        ghost var longer := order + [id];
        assert longer[..|longer| - 1] == order;
        order := longer;
      }
    }

    method Visit(session: Session)
      requires Valid() && Has(session)
      modifies this`hostId, this`effects
      ensures View() == VisitOne(old(View()), session.id)
    {
      hide Members;
      MemberOf(session);
      var enabled := PrivateModeEnabled(session);
      if enabled && IsHost(session) {
        ClearHost();
      }
      PauseIfAny(session.webrtcPeer, enabled);
    }

    /** Some order of the sessions. */
    ghost method SomeOrder() returns (order: seq<Id>)
      ensures Lists(order, sessions.Keys)
    {
      order := [];
      var rest := sessions.Keys;
      while rest != {}
        invariant rest <= sessions.Keys
        invariant Lists(order, sessions.Keys - rest)
        decreases rest
      {
        var id :| id in rest;
        rest := rest - {id};
        order := order + [id];
      }
    }
  }
}
