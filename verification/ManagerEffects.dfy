/** What the session manager has others do: which WebRTC peers it pauses, unpauses and destroys, and when it
    releases all keys. */
module ManagerEffects {
  import opened Options
  import opened ManagerSpec
  import HostControl

  // ---- what each call adds --------------------------------------------------------------------

  /** The WebRTC peer of a session is paused exactly if private mode is on and the session is no admin. */
  function PauseOf(s: Member, privateMode: bool): seq<Effect> {
    if s.rtcPeer.Some? then [PeerPaused(s.rtcPeer.value, privateMode && !s.profile.isAdmin)] else []
  }

  function PausesOf(sessions: map<Id, Member>, privateMode: bool, order: seq<Id>): seq<Effect>
    requires forall id :: id in order ==> id in sessions
  {
    if order == [] then []
    else
      PausesOf(sessions, privateMode, order[..|order| - 1]) + PauseOf(sessions[order[|order| - 1]], privateMode)
  }

  function KeysResetIf(b: bool): seq<Effect> {
    if b then [KeysReset] else []
  }

  /** The peer of a session that watches is destroyed. */
  function DestroyedIf(b: bool, s: Member): seq<Effect> {
    if b && s.watching then [PeerDestroyed(s.rtcPeer)] else []
  }

  /** What a call has others do, in this order. (Clearing the host makes the session with the empty id look
      like it, if there is one.) */
  ghost function Orders(m: Manager, c: Call): seq<Effect>
    requires Allowed(m, c)
  {
    match c
    case Updating(id, p, _) =>
      if id !in m.sessions then []
      else
        var s := m.sessions[id];
        DestroyedIf(!p.canConnect || !p.canLogin || !p.canWatch, s)
        + KeysResetIf(IsHost(m, id) && (p.canHost || id == "") && (!p.canConnect || !p.canLogin) && s.connected)
        + PauseOf(s.(profile := p), m.settings.privateMode)
    case Deleting(id, _) =>
      if id !in m.sessions then []
      else KeysResetIf(IsHost(m, id) && m.sessions[id].connected) + DestroyedIf(true, m.sessions[id])
    case Disconnecting(id) => KeysResetIf(IsHost(m, id))
    case Releasing(id) =>
      KeysResetIf(IsHost(m, id) && m.sessions[id].profile.canHost
                  && (m.settings.privateMode ==> m.sessions[id].profile.isAdmin))
    case Changing(settings, order) =>
      if settings.privateMode == m.settings.privateMode then [] else PausesOf(m.sessions, settings.privateMode, order)
    case _ => []
  }

  lemma {:induction false} VisitAllPauses(m: Manager, order: seq<Id>)
    requires forall id :: id in order ==> id in m.sessions
    ensures VisitAll(m, order).effects == m.effects + PausesOf(m.sessions, m.settings.privateMode, order)
    ensures VisitAll(m, order).settings == m.settings
  {
    if order != [] {
      VisitAllPauses(m, order[..|order| - 1]);
    }
  }

  lemma ChangeOrders(m: Manager, c: Call)
    requires Allowed(m, c) && c.Changing?
    ensures Apply(m, c).effects == m.effects + Orders(m, c)
  {
    hide VisitAll, PausesOf;
    VisitAllPauses(m.(settings := c.settings), c.order);
  }

  lemma ProfileOrders(m: Manager, id: Id)
    requires id in m.sessions
    ensures var s := m.sessions[id]; var p := s.profile;
            ProfileChanged(m, id).effects
            == m.effects + DestroyedIf(!p.canConnect || !p.canLogin || !p.canWatch, s)
               + KeysResetIf(IsHost(m, id) && (p.canHost || id == "") && (!p.canConnect || !p.canLogin) && s.connected)
               + PauseOf(s, m.settings.privateMode)
  {
    hide RightsChanged, PauseIfAny, SessionDisconnected;
    var s := m.sessions[id];
    var p := s.profile;
    var m1 := RightsChanged(m, id);
    RightsOrders(m, id);
    DisconnectOrders(SetConnected(m1, id, false), id);
    var leaves := (!p.canConnect || !p.canLogin) && s.connected;
    var m2 := if leaves then Disconnected(m1, id) else m1;
    assert m2.effects == m1.effects + KeysResetIf(leaves && IsHost(m1, id));
    PauseOrders(m2, s, m.settings.privateMode);
  }

  lemma RightsOrders(m: Manager, id: Id)
    requires id in m.sessions
    ensures var s, m' := m.sessions[id], RightsChanged(m, id); var p := s.profile;
      && m'.effects == m.effects + DestroyedIf(!p.canConnect || !p.canLogin || !p.canWatch, s)
      && m'.hostId == (if IsHost(m, id) && !p.canHost then Some("") else m.hostId)
  {
  }

  lemma DisconnectOrders(m: Manager, id: Id)
    ensures SessionDisconnected(m, id).effects == m.effects + KeysResetIf(IsHost(m, id))
  {
  }

  lemma PauseOrders(m: Manager, s: Member, privateMode: bool)
    ensures PauseIfAny(m, s.rtcPeer, privateMode && !s.profile.isAdmin).effects == m.effects + PauseOf(s, privateMode)
  {
  }

  lemma UpdateOrders(m: Manager, c: Call)
    requires Allowed(m, c) && c.Updating?
    ensures Apply(m, c).effects == m.effects + Orders(m, c)
  {
    hide Records, ProfileChanged, DestroyedIf, KeysResetIf, PauseOf;
    if c.id in m.sessions {
      ProfileOrders(Save(WithProfile(m, c.id, c.profile), c.order), c.id);
      SameWatcher(m.sessions[c.id], c.profile);
    }
  }

  lemma SameWatcher(s: Member, p: Profile)
    ensures forall b :: DestroyedIf(b, s.(profile := p)) == DestroyedIf(b, s)
  {
  }

  lemma DeleteOrders(m: Manager, c: Call)
    requires Allowed(m, c) && c.Deleting?
    ensures Apply(m, c).effects == m.effects + Orders(m, c)
  {
    hide Records, Lists;
  }

  /** Each call has others do exactly this: a settings change that turns private mode on or off pauses or
      unpauses the peer of every session, once; a profile update destroys the peer of a watcher who loses a
      right it needs, and ends by pausing or unpausing the peer as the new profile calls for. */
  lemma CallOrders(m: Manager, c: Call)
    requires Allowed(m, c) && !c.Restarting?
    ensures Apply(m, c).effects == m.effects + Orders(m, c)
  {
    hide VisitAll, PausesOf, Records, Lists;
    match c
    case Updating(_, _, _) => UpdateOrders(m, c);
    case Deleting(_, _) => DeleteOrders(m, c);
    case Changing(_, _) => ChangeOrders(m, c);
    case _ =>
  }

  /** The sessions among these that have a WebRTC peer. */
  function WithPeers(sessions: map<Id, Member>, order: seq<Id>): set<Id>
    requires forall id :: id in order ==> id in sessions
  {
    set id | id in order && sessions[id].rtcPeer.Some?
  }

  lemma OneMoreWithPeer(sessions: map<Id, Member>, front: seq<Id>, last: Id)
    requires (forall id :: id in front + [last] ==> id in sessions) && last !in front
    ensures forall id :: id in front ==> id in sessions
    ensures |WithPeers(sessions, front + [last])|
            == |WithPeers(sessions, front)| + if sessions[last].rtcPeer.Some? then 1 else 0
  {
    assert forall id :: id in front ==> id in front + [last];
    assert last in front + [last];
    var before := WithPeers(sessions, front);
    assert last !in before;
    assert WithPeers(sessions, front + [last])
        == if sessions[last].rtcPeer.Some? then before + {last} else before;
  }

  lemma {:induction false} AsManyAsPeers(sessions: map<Id, Member>, on: bool, order: seq<Id>)
    requires (forall id :: id in order ==> id in sessions)
             && forall i, j :: 0 <= i < j < |order| ==> order[i] != order[j]
    ensures |PausesOf(sessions, on, order)| == |WithPeers(sessions, order)|
  {
    hide WithPeers;
    if order != [] {
      var front, last := order[..|order| - 1], order[|order| - 1];
      AsManyAsPeers(sessions, on, front);
      assert order == front + [last];
      OneMoreWithPeer(sessions, front, last);
    } else {
      NoneWithPeers(sessions);
    }
  }

  lemma NoneWithPeers(sessions: map<Id, Member>)
    ensures WithPeers(sessions, []) == {}
  {
  }

  /** The order is that for the peer of session id. */
  ghost predicate IsPauseOf(sessions: map<Id, Member>, on: bool, id: Id, e: Effect) {
    id in sessions && sessions[id].rtcPeer.Some?
    && e == PeerPaused(sessions[id].rtcPeer.value, on && !sessions[id].profile.isAdmin)
  }

  lemma {:induction false} ThoseOfSessions(sessions: map<Id, Member>, on: bool, order: seq<Id>, e: Effect)
    requires forall id :: id in order ==> id in sessions
    ensures e in PausesOf(sessions, on, order) <==> exists id :: id in order && IsPauseOf(sessions, on, id, e)
  {
    if order != [] {
      var front, last := order[..|order| - 1], order[|order| - 1];
      assert order == front + [last];
      ThoseOfSessions(sessions, on, front, e);
      assert e in PauseOf(sessions[last], on) <==> IsPauseOf(sessions, on, last, e);
    }
  }

  /** When a settings change turns private mode on or off, it orders exactly one thing for each session that
      has a peer: to pause the peer if the mode is on now and the session is no admin, to unpause it
      otherwise. A settings change that does not orders nothing. */
  lemma SettingsPauseEverybodyOnce(m: Manager, settings: Settings, order: seq<Id>, e: Effect)
    requires Lists(order, m.sessions.Keys)
    ensures var before, after := m.effects, UpdateSettings(m, settings, order).effects;
      && before <= after
      && (settings.privateMode == m.settings.privateMode ==> after == before)
      && (settings.privateMode != m.settings.privateMode ==>
            && |after| - |before| == |set id | id in m.sessions && m.sessions[id].rtcPeer.Some?|
            && (e in after[|before|..] <==> exists id :: IsPauseOf(m.sessions, settings.privateMode, id, e)))
  {
    hide UpdateSettings, VisitAll, PausesOf;
    var c, on := Changing(settings, order), settings.privateMode;
    ChangeOrders(m, c);
    assert Apply(m, c) == UpdateSettings(m, settings, order);
    if on != m.settings.privateMode {
      var added := PausesOf(m.sessions, on, order);
      assert UpdateSettings(m, settings, order).effects[|m.effects|..] == added;
      AsManyAsPeers(m.sessions, on, order);
      ThoseOfSessions(m.sessions, on, order, e);
      assert WithPeers(m.sessions, order) == set id | id in m.sessions && m.sessions[id].rtcPeer.Some?;
    }
  }

  // ---- over runs ------------------------------------------------------------------------------

  /** The last order to pause or unpause the peer. */
  function LastPause(effects: seq<Effect>, p: Peer): Option<bool> {
    if effects == [] then None
    else
      var e := effects[|effects| - 1];
      if e.PeerPaused? && e.pausedPeer == p then Some(e.paused) else LastPause(effects[..|effects| - 1], p)
  }

  /** No two sessions share a peer, and the last order about the peer of a session, if there has been one, is
      what the settings and its profile call for. */
  ghost predicate PausesRight(m: Manager) {
    && (forall a, b :: a in m.sessions && b in m.sessions && a != b && m.sessions[a].rtcPeer.Some? ==>
          m.sessions[a].rtcPeer != m.sessions[b].rtcPeer)
    && (forall id :: id in m.sessions ==> RightFor(m, id))
  }

  ghost predicate RightFor(m: Manager, id: Id)
    requires id in m.sessions
  {
    var s := m.sessions[id];
    s.rtcPeer.Some? ==>
      var last := LastPause(m.effects, s.rtcPeer.value);
      last.Some? ==> last.value == (m.settings.privateMode && !s.profile.isAdmin)
  }

  /** A peer that is set is a new one. */
  ghost predicate SetsNewPeer(m: Manager, c: Call) {
    c.PeerSet? ==> (forall id :: id in m.sessions ==> m.sessions[id].rtcPeer != Some(c.p))
                   && LastPause(m.effects, c.p) == None
  }

  lemma {:induction false} LastPauseAppend(a: seq<Effect>, b: seq<Effect>, p: Peer)
    ensures LastPause(a + b, p) == if LastPause(b, p).Some? then LastPause(b, p) else LastPause(a, p)
  {
    if b == [] {
      assert a + b == a;
    } else {
      assert (a + b)[..|a + b| - 1] == a + b[..|b| - 1];
      LastPauseAppend(a, b[..|b| - 1], p);
    }
  }

  lemma NoPauseElsewhere(s: Member, on: bool, p: Peer)
    ensures LastPause(PauseOf(s, on), p)
            == if s.rtcPeer == Some(p) then Some(on && !s.profile.isAdmin) else None
  {
    if s.rtcPeer.Some? {
      assert PauseOf(s, on)[..0] == [];
    }
  }

  lemma NoPause(s: Member, b: bool, p: Peer)
    ensures LastPause(KeysResetIf(b), p) == None && LastPause(DestroyedIf(b, s), p) == None
  {
    assert KeysResetIf(true)[..0] == [] && [PeerDestroyed(s.rtcPeer)][..0] == [];
  }

  /** The loop leaves each session's peer with the order that the mode calls for. */
  lemma {:induction false} LastOfLoop(sessions: map<Id, Member>, on: bool, order: seq<Id>, id: Id)
    requires forall k :: k in order ==> k in sessions
    requires id in sessions && sessions[id].rtcPeer.Some?
    requires forall k :: k in sessions && k != id ==> sessions[k].rtcPeer != sessions[id].rtcPeer
    ensures LastPause(PausesOf(sessions, on, order), sessions[id].rtcPeer.value)
            == if id in order then Some(on && !sessions[id].profile.isAdmin) else None
  {
    if order != [] {
      var front, last := order[..|order| - 1], order[|order| - 1];
      assert order == front + [last];
      LastOfLoop(sessions, on, front, id);
      NoPauseElsewhere(sessions[last], on, sessions[id].rtcPeer.value);
      LastPauseAppend(PausesOf(sessions, on, front), PauseOf(sessions[last], on), sessions[id].rtcPeer.value);
    }
  }

  /** What the orders of a call say about the peer of a session. */
  lemma OrdersFor(m: Manager, c: Call, id: Id)
    requires Allowed(m, c) && PausesRight(m) && id in m.sessions && m.sessions[id].rtcPeer.Some?
    ensures var p := m.sessions[id].rtcPeer.value;
            LastPause(Orders(m, c), p) == match c
              case Updating(k, profile, _) =>
                if k == id then Some(m.settings.privateMode && !profile.isAdmin) else None
              case Changing(settings, _) =>
                if settings.privateMode == m.settings.privateMode then None
                else Some(settings.privateMode && !m.sessions[id].profile.isAdmin)
              case _ => None
  {
    hide LastPause, PausesOf, KeysResetIf, DestroyedIf, PauseOf, RightFor, Lists;
    var p := m.sessions[id].rtcPeer.value;
    NoPauseIn(p);
    match c
    case Updating(k, profile, _) => if k in m.sessions { UpdateOrdersFor(m, c, p); }
    case Deleting(k, _) => if k in m.sessions { DeleteOrdersFor(m, c, p); }
    case Disconnecting(k) => NoPause(m.sessions[k], IsHost(m, k), p);
    case Releasing(k) =>
      var b := IsHost(m, k) && m.sessions[k].profile.canHost
               && (m.settings.privateMode ==> m.sessions[k].profile.isAdmin);
      NoPause(m.sessions[k], b, p);
    case Changing(settings, order) =>
      VisitsAll(order, m.sessions.Keys);
      LastOfLoop(m.sessions, settings.privateMode, order, id);
    case _ =>
  }

  lemma NoPauseIn(p: Peer)
    ensures LastPause([], p) == None
  {
  }

  lemma VisitsAll(order: seq<Id>, ids: set<Id>)
    requires Lists(order, ids)
    ensures forall id :: id in order <==> id in ids
  {
  }

  lemma UpdateOrdersFor(m: Manager, c: Call, p: Peer)
    requires Allowed(m, c) && c.Updating? && c.id in m.sessions
    ensures LastPause(Orders(m, c), p)
            == if m.sessions[c.id].rtcPeer == Some(p) then Some(m.settings.privateMode && !c.profile.isAdmin) else None
  {
    hide LastPause, KeysResetIf, DestroyedIf, PauseOf, Lists;
    var s, profile := m.sessions[c.id], c.profile;
    var b := IsHost(m, c.id) && (profile.canHost || c.id == "") && (!profile.canConnect || !profile.canLogin)
             && s.connected;
    var gone := !profile.canConnect || !profile.canLogin || !profile.canWatch;
    NoPause(s, b, p);
    NoPause(s, gone, p);
    NoPauseElsewhere(s.(profile := profile), m.settings.privateMode, p);
    LastPauseAppend(DestroyedIf(gone, s), KeysResetIf(b), p);
    LastPauseAppend(DestroyedIf(gone, s) + KeysResetIf(b), PauseOf(s.(profile := profile), m.settings.privateMode), p);
  }

  lemma DeleteOrdersFor(m: Manager, c: Call, p: Peer)
    requires Allowed(m, c) && c.Deleting? && c.id in m.sessions
    ensures LastPause(Orders(m, c), p) == None
  {
    hide LastPause, KeysResetIf, DestroyedIf, Lists;
    var s, b := m.sessions[c.id], IsHost(m, c.id) && m.sessions[c.id].connected;
    NoPause(s, b, p);
    NoPause(s, true, p);
    LastPauseAppend(KeysResetIf(b), DestroyedIf(true, s), p);
  }

  /** What a session is after a step that does not restart the manager. */
  ghost predicate SessionAfter(m: Manager, c: Call, m': Manager, id: Id)
    requires id in m'.sessions
  {
    var s' := m'.sessions[id];
    if id !in m.sessions then c.Creating? && c.id == id && s' == NewMember(c.token, c.profile)
    else
      var s := m.sessions[id];
      && s'.token == s.token
      && s'.profile == (if c.Updating? && c.id == id then c.profile else s.profile)
      && (s'.connected <==> (c.Connecting? && c.id == id) || (s.connected && !Disconnects(c, id)))
      && s'.rtcPeer == (if c.PeerSet? && c.id == id then Some(c.p)
                        else if c.PeerChanging? && c.id == id && !c.up && s.rtcPeer == Some(c.p) then None
                        else s.rtcPeer)
      && s'.watching == (if c.PeerChanging? && c.id == id && s.rtcPeer == Some(c.p) then c.up else s.watching)
  }

  /** The step ends the connection of the session. */
  predicate Disconnects(c: Call, id: Id) {
    match c
    case Disconnecting(q) => q == id
    case Updating(q, p, _) => q == id && (!p.canConnect || !p.canLogin)
    case _ => false
  }

  lemma UpdateSessionAfter(m: Manager, c: Call, id: Id)
    requires Allowed(m, c) && c.Updating? && id in Apply(m, c).sessions
    ensures SessionAfter(m, c, Apply(m, c), id) && Apply(m, c).settings == m.settings
  {
    hide Records, ProfileChanged;
    if c.id in m.sessions {
      HostControl.ProfileSessions(Save(WithProfile(m, c.id, c.profile), c.order), c.id);
    }
  }

  lemma DeleteSessionAfter(m: Manager, c: Call, id: Id)
    requires Allowed(m, c) && c.Deleting? && id in Apply(m, c).sessions
    ensures SessionAfter(m, c, Apply(m, c), id) && Apply(m, c).settings == m.settings
  {
    hide Records, Lists;
  }

  lemma CreateSessionAfter(m: Manager, c: Call, id: Id)
    requires Allowed(m, c) && c.Creating? && id in Apply(m, c).sessions
    ensures SessionAfter(m, c, Apply(m, c), id)
  {
    hide Records, Lists;
  }

  lemma ChangeSessionAfter(m: Manager, c: Call, id: Id)
    requires Allowed(m, c) && c.Changing? && id in Apply(m, c).sessions
    ensures SessionAfter(m, c, Apply(m, c), id)
  {
    hide VisitAll;
  }

  /** After any other step than a restart a session has the token it was created with, the profile of its last
      update, and the connection and WebRTC peer that the step gives it, takes from it, or leaves it. */
  lemma SessionsAfter(m: Manager, c: Call, id: Id)
    requires Allowed(m, c) && !c.Restarting? && id in Apply(m, c).sessions
    ensures SessionAfter(m, c, Apply(m, c), id)
  {
    match c
    case Creating(_, _, _, _) => hide *; CreateSessionAfter(m, c, id);
    case Updating(_, _, _) => hide *; UpdateSessionAfter(m, c, id);
    case Deleting(_, _) => hide *; DeleteSessionAfter(m, c, id);
    case Changing(_, _) => hide *; ChangeSessionAfter(m, c, id);
    case _ =>
  }

  /** A session is there exactly if it was and is not deleted, or if it is created and neither its id nor its
      token was taken. */
  lemma FiledAfter(m: Manager, c: Call, id: Id)
    requires Allowed(m, c) && !c.Restarting?
    ensures id in Apply(m, c).sessions
            <==> || (id in m.sessions && !(c.Deleting? && c.id == id))
                 || (c.Creating? && c.id == id && id !in m.sessions && c.token !in m.tokens)
  {
    hide Records, Lists, VisitAll;
    match c
    case Updating(k, profile, order) => UpdateFiled(m, c);
    case Deleting(_, _) => DeleteFiled(m, c);
    case _ =>
  }

  lemma UpdateFiled(m: Manager, c: Call)
    requires Allowed(m, c) && c.Updating?
    ensures Apply(m, c).sessions.Keys == m.sessions.Keys
  {
    hide Records, ProfileChanged;
    if c.id in m.sessions {
      HostControl.ProfileSessions(Save(WithProfile(m, c.id, c.profile), c.order), c.id);
    }
  }

  lemma DeleteFiled(m: Manager, c: Call)
    requires Allowed(m, c) && c.Deleting?
    ensures Apply(m, c).sessions.Keys == m.sessions.Keys - {c.id}
  {
    hide Records, Lists;
  }

  lemma ModeAfter(m: Manager, c: Call)
    requires Allowed(m, c) && !c.Restarting?
    ensures Apply(m, c).settings.privateMode == if c.Changing? then c.settings.privateMode else m.settings.privateMode
  {
    hide Records, VisitAll;
    match c
    case Changing(settings, order) =>
      VisitAllPauses(m.(settings := settings), order);
    case Updating(id, profile, order) =>
      if id in m.sessions { HostControl.ProfileSessions(Save(WithProfile(m, id, profile), order), id); }
    case _ =>
  }

  lemma StaysRightFor(m: Manager, c: Call, id: Id)
    requires Allowed(m, c) && PausesRight(m) && SetsNewPeer(m, c) && !c.Restarting? && id in Apply(m, c).sessions
    ensures RightFor(Apply(m, c), id)
  {
    hide Apply, Allowed, Orders, LastPause;
    var m' := Apply(m, c);
    SessionsAfter(m, c, id);
    ModeAfter(m, c);
    CallOrders(m, c);
    if m'.sessions[id].rtcPeer.Some? {
      var p := m'.sessions[id].rtcPeer.value;
      LastPauseAppend(m.effects, Orders(m, c), p);
      if c.PeerSet? {
        SettingOrdersNothing(m, c, p);
      }
      if m.sessions[id].rtcPeer == Some(p) {
        OrdersFor(m, c, id);
      }
    }
  }

  lemma SettingOrdersNothing(m: Manager, c: Call, p: Peer)
    requires Allowed(m, c) && c.PeerSet?
    ensures LastPause(Orders(m, c), p) == None
  {
  }

  lemma PeersStayDistinct(m: Manager, c: Call, a: Id, b: Id)
    requires Allowed(m, c) && PausesRight(m) && SetsNewPeer(m, c) && !c.Restarting?
    requires a in Apply(m, c).sessions && b in Apply(m, c).sessions && a != b && Apply(m, c).sessions[a].rtcPeer.Some?
    ensures Apply(m, c).sessions[a].rtcPeer != Apply(m, c).sessions[b].rtcPeer
  {
    hide Apply, Allowed, LastPause, RightFor;
    SessionsAfter(m, c, a);
    SessionsAfter(m, c, b);
  }

  lemma {:induction false} LoadedHaveNoPeers(m: Manager, records: seq<Record>)
    requires forall id :: id in m.sessions ==> m.sessions[id].rtcPeer == None
    ensures forall id :: id in LoadAll(m, records).sessions ==> LoadAll(m, records).sessions[id].rtcPeer == None
  {
    if records != [] {
      LoadedHaveNoPeers(m, records[..|records| - 1]);
    }
  }

  lemma NewIsRight(settings: Settings, apiToken: Option<Token>, file: File)
    ensures PausesRight(New(settings, apiToken, file))
  {
    hide LoadAll;
    if file.Holding? {
      LoadedHaveNoPeers(Empty(settings, apiToken, file), file.records);
    }
  }

  lemma StepKeepsPauses(m: Manager, c: Call)
    requires Allowed(m, c) && PausesRight(m) && SetsNewPeer(m, c)
    ensures PausesRight(Apply(m, c))
  {
    if c.Restarting? {
      hide New, PausesRight;
      NewIsRight(c.settings, m.apiToken, m.file);
    } else {
      hide Apply, Allowed, RightFor, SetsNewPeer;
      var m' := Apply(m, c);
      forall id | id in m'.sessions ensures RightFor(m', id) {
        StaysRightFor(m, c, id);
      }
      forall a, b | a in m'.sessions && b in m'.sessions && a != b && m'.sessions[a].rtcPeer.Some?
        ensures m'.sessions[a].rtcPeer != m'.sessions[b].rtcPeer
      {
        PeersStayDistinct(m, c, a, b);
      }
    }
  }

  /** At every moment of a run in which peers are not set twice, the last order about the peer that a session
      has, if there has been one, is what the settings and the profile of that moment call for. */
  lemma {:induction false} PausesAreRight(states: seq<Manager>, calls: seq<Call>, n: nat, id: Id)
    requires IsRun(states, calls) && n < |states| && forall i :: 0 <= i < n ==> SetsNewPeer(states[i], calls[i])
    requires id in states[n].sessions && states[n].sessions[id].rtcPeer.Some?
    ensures var m := states[n];
            var last := LastPause(m.effects, m.sessions[id].rtcPeer.value);
            last.Some? ==> last.value == (m.settings.privateMode && !m.sessions[id].profile.isAdmin)
  {
    hide IsRun, SetsNewPeer, LastPause;
    RunIsRight(states, calls, n);
    assert RightFor(states[n], id);
  }

  lemma {:induction false} RunIsRight(states: seq<Manager>, calls: seq<Call>, n: nat)
    requires IsRun(states, calls) && n < |states| && forall i :: 0 <= i < n ==> SetsNewPeer(states[i], calls[i])
    ensures PausesRight(states[n])
  {
    hide PausesRight, Apply, Allowed, SetsNewPeer, WasGranted;
    if n == 0 {
      NewIsRight(states[0].settings, states[0].apiToken, states[0].file);
    } else {
      RunIsRight(states, calls, n - 1);
      StepKeepsPauses(states[n - 1], calls[n - 1]);
      assert states[n - 1 + 1] == Apply(states[n - 1], calls[n - 1]);
    }
  }
}
