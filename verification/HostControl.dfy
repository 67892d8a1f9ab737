/** Who may be the host. */
module HostControl {
  import opened Options
  import opened ManagerSpec

  /** The host is the one who was last given control, until it is cleared. */
  ghost predicate HasHost(m: Manager) {
    m.hostId.Some? && m.hostId.value != ""
  }

  /** A set host is a connected session that may host, and an admin if hosting is restricted. */
  ghost predicate HostOk(m: Manager) {
    HasHost(m) ==> MayBeHost(m, m.hostId.value)
  }

  ghost predicate Restricted(s: Settings) {
    s.privateMode || s.lockedControls
  }

  ghost predicate Eligible(m: Manager, id: Id)
    requires id in m.sessions
  {
    var s := m.sessions[id];
    s.connected && s.profile.canHost && (Restricted(m.settings) ==> s.profile.isAdmin)
  }

  ghost predicate MayBeHost(m: Manager, id: Id) {
    id in m.sessions && Eligible(m, id)
  }

  // ---- each step ------------------------------------------------------------------------------

  lemma SaveKeeps(m: Manager, order: seq<Id>)
    requires forall id :: id in order ==> id in m.sessions
    ensures Save(m, order) == m.(file := Save(m, order).file)
    ensures HostOk(Save(m, order)) <==> HostOk(m)
  {
    hide Records;
  }

  /** Of an existing session's request: the invariant is kept exactly unless a session that is not
      connected is given control. */
  lemma RequestKeepsIff(m: Manager, id: Id)
    requires HostOk(m) && id in m.sessions
    ensures HostOk(ControlRequest(m, id).0) <==> m.sessions[id].connected || id == "" || ControlRequest(m, id).1 != Done
  {
  }

  lemma ReleaseKeeps(m: Manager, id: Id)
    requires HostOk(m) && id in m.sessions
    ensures HostOk(ControlRelease(m, id).0)
  {
  }

  lemma DisconnectedKeeps(m: Manager, id: Id)
    requires HostOk(m) && id in m.sessions
    ensures HostOk(Disconnected(m, id))
  {
  }

  /** The update leaves a host who is no longer an admin in control although hosting is restricted. */
  ghost predicate RevokesHostAdmin(m: Manager, id: Id, p: Profile) {
    && HasHost(m) && m.hostId == Some(id) && id in m.sessions
    && Restricted(m.settings) && !p.isAdmin
    && p.canHost && p.canConnect && p.canLogin
  }

  /** An update keeps the invariant exactly unless it does that. */
  lemma UpdateKeepsIff(m: Manager, id: Id, p: Profile, order: seq<Id>)
    requires HostOk(m) && forall s :: s in order ==> s in m.sessions
    ensures HostOk(Update(m, id, p, order)) <==> !RevokesHostAdmin(m, id, p)
  {
    hide Records;
    if id in m.sessions {
      SaveKeeps(WithProfile(m, id, p), order);
      ProfileChangedKeepsIff(m, Save(WithProfile(m, id, p), order), id, p);
    }
  }

  lemma ProfileChangedKeepsIff(m: Manager, m1: Manager, id: Id, p: Profile)
    requires HostOk(m) && id in m.sessions && m1 == WithProfile(m, id, p).(file := m1.file)
    ensures HostOk(ProfileChanged(m1, id)) <==> !RevokesHostAdmin(m, id, p)
  {
  }

  lemma DeleteKeeps(m: Manager, id: Id, order: seq<Id>)
    requires HostOk(m) && forall s :: s in order ==> s in m.sessions && s != id
    ensures HostOk(Delete(m, id, order))
  {
    if id in m.sessions {
      SaveKeeps(Leave(Remove(m, id), id, m.sessions[id]), order);
    }
  }

  lemma CreateKeeps(m: Manager, id: Id, token: Token, p: Profile, order: seq<Id>)
    requires HostOk(m) && (CanCreate(m, id, token).Ok? ==> forall s :: s in order ==> s in m.sessions || s == id)
    ensures HostOk(Create(m, id, token, p, order))
  {
    if CanCreate(m, id, token).Ok? {
      SaveKeeps(Insert(m, id, token, p), order);
    }
  }

  /** The loop over the sessions clears the host exactly if it is a session with private mode enabled. */
  lemma {:induction false} VisitAllIs(m: Manager, order: seq<Id>)
    requires forall id :: id in order ==> id in m.sessions
    ensures var m' := VisitAll(m, order);
            m' == m.(hostId := m'.hostId, effects := m'.effects) && m'.hostId
            == if m.hostId.Some? && m.hostId.value in order && PrivateModeEnabled(m, m.hostId.value)
               then Some("") else m.hostId
  {
    if order != [] {
      VisitAllIs(m, order[..|order| - 1]);
    }
  }

  lemma ChangeKeeps(m: Manager, settings: Settings, order: seq<Id>)
    requires HostOk(m) && Lists(order, m.sessions.Keys)
    ensures HostOk(UpdateSettings(m, settings, order))
  {
    hide VisitAll;
    VisitAllIs(m.(settings := settings), order);
  }

  /** Control that nobody has goes to a connected session that asks for it if and only if it is eligible. */
  lemma FreeControlGoesToEligible(m: Manager, id: Id)
    requires id in m.sessions && m.sessions[id].connected && id != "" && !HasHost(m)
    ensures var (m', result) := ControlRequest(m, id);
            && (result == Done <==> Eligible(m, id))
            && (result == Done ==> m' == m.(hostId := Some(id)))
            && (result != Done ==> m' == m)
  {
  }

  /** What the answers to a request tell: whether the session is the host now, and why not. */
  lemma RequestAnswers(m: Manager, id: Id)
    requires HostOk(m) && id in m.sessions && m.sessions[id].connected && id != ""
    ensures var (m', result) := ControlRequest(m, id);
            && (result == Done || result == AlreadyTheHost <==> IsHost(m', id))
            && (result == AlreadyTheHost <==> IsHost(m, id))
            && (result == NotAllowedToHost <==> !Eligible(m, id))
            && (result == AlreadyHosted
                <==> Eligible(m, id) && HasHost(m) && !IsHost(m, id) && !m.settings.implicitHosting)
            && result != NotTheHost
  {
  }

  /** Only the host can release control, and then nobody has it. */
  lemma ReleaseAnswers(m: Manager, id: Id)
    requires HostOk(m) && id in m.sessions && m.sessions[id].connected && id != ""
    ensures var (m', result) := ControlRelease(m, id);
            && (result == Done <==> IsHost(m, id))
            && (result == Done ==> !HasHost(m') && m' == m.(hostId := m'.hostId, effects := m.effects + [KeysReset]))
            && (result != Done ==> m' == m)
  {
  }

  // ---- over any run ---------------------------------------------------------------------------

  /** A profile update that takes IsAdmin from someone. */
  ghost predicate RevokesAdmin(m: Manager, c: Call) {
    c.Updating? && c.id in m.sessions && m.sessions[c.id].profile.isAdmin && !c.profile.isAdmin
  }

  /** A request is granted that was checked before, to a session that is not eligible by now. */
  ghost predicate GrantsWrongly(m: Manager, id: Id) {
    id != "" && !MayBeHost(m, id)
  }

  lemma GrantKeepsIff(m: Manager, id: Id)
    ensures HostOk(SetHost(m, id)) <==> !GrantsWrongly(m, id)
  {
  }

  /** A request that is granted at once is granted rightly. */
  lemma PromptGrantIsRight(m: Manager, id: Id)
    requires id in m.sessions && m.sessions[id].connected && CheckRequest(m, id) == Done
    ensures !GrantsWrongly(m, id)
  {
  }

  ghost predicate Breaks(m: Manager, c: Call) {
    || (c.Updating? && RevokesHostAdmin(m, c.id, c.profile))
    || (c.Granting? && GrantsWrongly(m, c.id))
  }

  lemma LoadHasNoHost(m: Manager, records: seq<Record>)
    ensures LoadAll(m, records).hostId == m.hostId
  {
  }

  lemma ApplyKeepsIff(m: Manager, c: Call)
    requires HostOk(m) && Allowed(m, c)
    ensures HostOk(Apply(m, c)) <==> !Breaks(m, c)
  {
    hide HostOk, Update, Delete, Create, UpdateSettings, ControlRequest, ControlRelease, Disconnected,
      RevokesHostAdmin, GrantsWrongly, PeerState;
    match c
    case Creating(id, token, p, order) => CreateKeeps(m, id, token, p, order);
    case Updating(id, p, order) => UpdateKeepsIff(m, id, p, order);
    case Deleting(id, order) => DeleteKeeps(m, id, order);
    case Connecting(id) => ConnectKeeps(m, id);
    case Disconnecting(id) => DisconnectedKeeps(m, id);
    case Requesting(id) => RequestKeepsIff(m, id);
    case Granting(id, _) => GrantKeepsIff(m, id);
    case Releasing(id) => ReleaseKeeps(m, id);
    case PeerSet(id, p) => PeerKeeps(m, id, SetPeer(m, id, p));
    case PeerChanging(id, p, up) => PeerStateKeeps(m, id, p, up);
    case Changing(settings, order) => ChangeKeeps(m, settings, order);
    case Restarting(settings) => RestartKeeps(m, settings);
  }

  /** The WebRTC side of a session has no say in this. */
  lemma PeerKeeps(m: Manager, id: Id, m': Manager)
    requires HostOk(m) && id in m.sessions && m' == m.(sessions := m'.sessions)
    requires id in m'.sessions && m'.sessions == m.sessions[id := m'.sessions[id]]
    requires m'.sessions[id].profile == m.sessions[id].profile && m'.sessions[id].connected == m.sessions[id].connected
    ensures HostOk(m')
  {
  }

  lemma PeerStateKeeps(m: Manager, id: Id, p: Peer, up: bool)
    requires HostOk(m) && id in m.sessions
    ensures HostOk(PeerState(m, id, p, up))
  {
    hide HostOk;
    PeerKeeps(m, id, PeerState(m, id, p, up));
  }

  lemma ConnectKeeps(m: Manager, id: Id)
    requires HostOk(m) && id in m.sessions
    ensures HostOk(SetConnected(m, id, true))
  {
  }

  lemma RestartKeeps(m: Manager, settings: Settings)
    ensures HostOk(New(settings, m.apiToken, m.file))
  {
    if m.file.Holding? {
      LoadHasNoHost(Empty(settings, m.apiToken, m.file), m.file.records);
    }
  }

  /** The host is eligible throughout a run if and only if no update and no late grant in it broke that. */
  lemma {:induction false} HostAlwaysEligibleIff(states: seq<Manager>, calls: seq<Call>, n: nat)
    requires IsRun(states, calls) && n < |states|
    ensures (forall i :: 0 <= i <= n ==> HostOk(states[i]))
            <==> (forall i :: 0 <= i < n ==> !Breaks(states[i], calls[i]))
  {
    hide HostOk, Apply, Allowed, Breaks;
    if n > 0 {
      HostAlwaysEligibleIff(states, calls, n - 1);
      var m, c := states[n - 1], calls[n - 1];
      assert Allowed(m, c) && states[n - 1 + 1] == Apply(m, c);
      if HostOk(m) {
        ApplyKeepsIff(m, c);
        assert HostOk(states[n]) <==> !Breaks(m, c);
      }
    } else {
      RestartKeeps(states[0], states[0].settings);
    }
  }

  /** In every run in which nobody loses IsAdmin and no request is granted too late, a set host is an
      existing connected session that may host, and an admin whenever private mode or locked controls is on. */
  lemma {:induction false} HostIsEligible(states: seq<Manager>, calls: seq<Call>, n: nat)
    requires IsRun(states, calls) && n < |states|
    requires forall i :: 0 <= i < n ==> !RevokesAdmin(states[i], calls[i])
    requires forall i :: 0 <= i < n && calls[i].Granting? ==> !GrantsWrongly(states[i], calls[i].id)
    ensures HasHost(states[n]) ==>
              var h, m := states[n].hostId.value, states[n];
              && h in m.sessions && m.sessions[h].connected && m.sessions[h].profile.canHost
              && (m.settings.privateMode || m.settings.lockedControls ==> m.sessions[h].profile.isAdmin)
  {
    HostIsOk(states, calls, n);
  }

  lemma {:induction false} HostIsOk(states: seq<Manager>, calls: seq<Call>, n: nat)
    requires IsRun(states, calls) && n < |states|
    requires forall i :: 0 <= i < n ==> !RevokesAdmin(states[i], calls[i])
    requires forall i :: 0 <= i < n && calls[i].Granting? ==> !GrantsWrongly(states[i], calls[i].id)
    ensures HostOk(states[n])
  {
    hide HostOk, Apply, Allowed, RevokesAdmin, RevokesHostAdmin, GrantsWrongly;
    forall i | 0 <= i < n ensures !Breaks(states[i], calls[i]) {
      HostIsOk(states, calls, i);
      NotRevoked(states[i], calls[i]);
    }
    HostAlwaysEligibleIff(states, calls, n);
  }

  lemma NotRevoked(m: Manager, c: Call)
    requires HostOk(m)
    ensures Breaks(m, c) && c.Updating? ==> RevokesAdmin(m, c)
  {
  }

  /** Such an update exists: the host, an admin under locked controls, becomes an ordinary member. */
  lemma RevokingAdminBreaks()
    ensures exists m: Manager, c: Call :: HostOk(m) && Allowed(m, c) && !HostOk(Apply(m, c))
  {
    var admin := Profile("a", true, true, true, true, true, true, true, true, true);
    var m := Manager(map["t" := "a"], map["a" := Member("t", admin, true, None, false)], Some("a"),
                     Settings(false, true, false), None, NotConfigured, []);
    var c := Updating("a", admin.(isAdmin := false), ["a"]);
    UpdateKeepsIff(m, "a", admin.(isAdmin := false), ["a"]);
    assert HostOk(m) && Allowed(m, c);
  }

  // ---- handing over ---------------------------------------------------------------------------

  /** Unless hosting is implicit, control never goes from one session straight to another, whatever the step,
      except if a request is granted that was checked before there was this host. */
  lemma TakesOverIff(m: Manager, c: Call)
    requires HostOk(m) && Allowed(m, c) && HasHost(m) && !m.settings.implicitHosting
    ensures HasHost(Apply(m, c)) && Apply(m, c).hostId != m.hostId <==> c.Granting? && c.id != "" && !IsHost(m, c.id)
  {
    hide HostOk, Lists, Records;
    match c
    case Requesting(id) => HostIsFound(m);
    case Changing(settings, order) => ChangeKeepsOrClears(m, settings, order);
    case Restarting(settings) => RestartHasNoHost(m, settings);
    case Updating(_, _, _) => UpdateKeepsOrClears(m, c);
    case Deleting(_, _) => DeleteKeepsOrClears(m, c);
    case _ =>
  }

  lemma UpdateKeepsOrClears(m: Manager, c: Call)
    requires Allowed(m, c) && c.Updating?
    ensures Apply(m, c).hostId in {m.hostId, Some("")}
  {
    hide Lists, Records;
  }

  lemma DeleteKeepsOrClears(m: Manager, c: Call)
    requires Allowed(m, c) && c.Deleting?
    ensures Apply(m, c).hostId in {m.hostId, Some("")}
  {
    hide Lists, Records;
  }

  /** Two requests that are checked while there is no host, and granted one after the other, do that. */
  lemma RacingRequests(m: Manager, a: Id, b: Id)
    requires !HasHost(m) && a != b && a != "" && b != "" && a in m.sessions && b in m.sessions
    requires m.sessions[a].connected && Eligible(m, a) && m.sessions[b].connected && Eligible(m, b)
    ensures CheckRequest(m, a) == Done && CheckRequest(m, b) == Done
    ensures HostOk(SetHost(m, a)) && HasHost(SetHost(m, a)) && SetHost(SetHost(m, a), b).hostId == Some(b)
  {
  }

  lemma HostIsFound(m: Manager)
    requires HostOk(m) && HasHost(m)
    ensures GetHost(m) == m.hostId
  {
  }

  lemma RestartHasNoHost(m: Manager, settings: Settings)
    ensures !HasHost(New(settings, m.apiToken, m.file))
  {
    if m.file.Holding? {
      LoadHasNoHost(Empty(settings, m.apiToken, m.file), m.file.records);
    }
  }

  lemma ChangeKeepsOrClears(m: Manager, settings: Settings, order: seq<Id>)
    requires Lists(order, m.sessions.Keys)
    ensures UpdateSettings(m, settings, order).hostId in {m.hostId, Some("")}
  {
    hide VisitAll;
    VisitAllIs(m.(settings := settings), order);
  }

  // ---- who is host after a step ---------------------------------------------------------------

  /** The step takes control from the host: it lets go, its connection ends, it may not host any more, or
      hosting is restricted and it is no admin. */
  ghost predicate LosesControl(m: Manager, c: Call) {
    match c
    case Releasing(id) =>
      IsHost(m, id) && id in m.sessions && m.sessions[id].profile.canHost
      && (m.settings.privateMode ==> m.sessions[id].profile.isAdmin)
    case Disconnecting(id) => IsHost(m, id)
    case Deleting(id, _) => IsHost(m, id) && id in m.sessions && m.sessions[id].connected
    case Updating(id, p, _) =>
      IsHost(m, id) && id in m.sessions
      && (!p.canHost || ((!p.canConnect || !p.canLogin) && m.sessions[id].connected))
    case Changing(s, _) =>
      && m.hostId.Some? && m.hostId.value in m.sessions && !m.sessions[m.hostId.value].profile.isAdmin
      && ((s.privateMode && !m.settings.privateMode) || (s.lockedControls && !m.settings.lockedControls))
    case _ => false
  }

  ghost predicate HostIs(m: Manager, c: Call, hostId: Option<Id>)
    requires Allowed(m, c)
  {
    match c
    case Requesting(id) => hostId == if CheckRequest(m, id) == Done then Some(id) else m.hostId
    case Granting(id, _) => hostId == Some(id)
    case Restarting(_) => hostId == None
    case _ => hostId == if LosesControl(m, c) then Some("") else m.hostId
  }

  lemma UpdateHost(m: Manager, c: Call)
    requires Allowed(m, c) && c.Updating?
    ensures HostIs(m, c, Apply(m, c).hostId)
  {
    hide Lists, Records;
  }

  lemma ChangeHost(m: Manager, c: Call)
    requires Allowed(m, c) && c.Changing?
    ensures HostIs(m, c, Apply(m, c).hostId)
  {
    hide VisitAll;
    VisitAllIs(m.(settings := c.settings), c.order);
  }

  /** Exactly these steps give control to anybody or take it away, from a state of any kind; all others leave
      the host as it is. */
  lemma HostAfter(m: Manager, c: Call)
    requires Allowed(m, c)
    ensures HostIs(m, c, Apply(m, c).hostId)
  {
    hide Lists, Records, VisitAll, LoadAll;
    match c
    case Updating(_, _, _) => UpdateHost(m, c);
    case Changing(_, _) => ChangeHost(m, c);
    case Restarting(settings) =>
      if m.file.Holding? { LoadHasNoHost(Empty(settings, m.apiToken, m.file), m.file.records); }
    case _ =>
  }

  // ---- late grants ----------------------------------------------------------------------------

  /** The step ends the eligibility of a session: it disconnects or deletes it, takes a right that it needs,
      restricts hosting although it is no admin, or restarts the manager. */
  ghost predicate Disturbs(m: Manager, c: Call, id: Id) {
    && MayBeHost(m, id)
    && match c
       case Disconnecting(q) => q == id
       case Deleting(q, _) => q == id
       case Updating(q, p, _) =>
         q == id && (!p.canHost || !p.canConnect || !p.canLogin || (Restricted(m.settings) && !p.isAdmin))
       case Changing(settings, _) => Restricted(settings) && !m.sessions[id].profile.isAdmin
       case Restarting(_) => true
       case _ => false
  }

  /** The step makes a session eligible that was not: it connects it, gives it a right that it lacked, or
      lifts a restriction. */
  ghost predicate Restores(m: Manager, c: Call, id: Id) {
    && !MayBeHost(m, id) && id in m.sessions
    && var s := m.sessions[id];
       match c
       case Connecting(q) => q == id && s.profile.canHost && (Restricted(m.settings) ==> s.profile.isAdmin)
       case Updating(q, p, _) =>
         q == id && s.connected && p.canHost && p.canConnect && p.canLogin && (Restricted(m.settings) ==> p.isAdmin)
       case Changing(settings, _) => s.connected && s.profile.canHost && (Restricted(settings) ==> s.profile.isAdmin)
       case _ => false
  }

  /** A profile change leaves the other sessions alone, and this one connected if it was and still may be. */
  lemma ProfileSessions(m: Manager, id: Id)
    requires id in m.sessions
    ensures var s, m' := m.sessions[id], ProfileChanged(m, id);
            m'.settings == m.settings && m'.sessions
            == m.sessions[id := s.(connected := s.connected && s.profile.canConnect && s.profile.canLogin)]
  {
  }

  lemma UpdateQualifiesIff(m: Manager, c: Call, id: Id)
    requires Allowed(m, c) && c.Updating?
    ensures MayBeHost(Apply(m, c), id) <==> (MayBeHost(m, id) && !Disturbs(m, c, id)) || Restores(m, c, id)
  {
    hide Records, ProfileChanged;
    if c.id in m.sessions {
      ProfileSessions(Save(WithProfile(m, c.id, c.profile), c.order), c.id);
    }
  }

  lemma DeleteQualifiesIff(m: Manager, c: Call, id: Id)
    requires Allowed(m, c) && c.Deleting?
    ensures MayBeHost(Apply(m, c), id) <==> (MayBeHost(m, id) && !Disturbs(m, c, id)) || Restores(m, c, id)
  {
    hide Lists, Records;
  }

  lemma CreateQualifiesIff(m: Manager, c: Call, id: Id)
    requires Allowed(m, c) && c.Creating?
    ensures MayBeHost(Apply(m, c), id) <==> (MayBeHost(m, id) && !Disturbs(m, c, id)) || Restores(m, c, id)
  {
    hide Lists, Records;
  }

  lemma ChangeQualifiesIff(m: Manager, c: Call, id: Id)
    requires Allowed(m, c) && c.Changing?
    ensures MayBeHost(Apply(m, c), id) <==> (MayBeHost(m, id) && !Disturbs(m, c, id)) || Restores(m, c, id)
  {
    hide VisitAll;
    VisitAllIs(m.(settings := c.settings), c.order);
  }

  /** Nobody is connected when the sessions have been loaded. */
  lemma {:induction false} LoadedAreNotConnected(m: Manager, records: seq<Record>)
    requires forall id :: id in m.sessions ==> !m.sessions[id].connected
    ensures forall id :: id in LoadAll(m, records).sessions ==> !LoadAll(m, records).sessions[id].connected
  {
    if records != [] {
      LoadedAreNotConnected(m, records[..|records| - 1]);
    }
  }

  lemma RestartQualifiesNobody(m: Manager, settings: Settings, id: Id)
    ensures !MayBeHost(New(settings, m.apiToken, m.file), id)
  {
    if m.file.Holding? {
      LoadedAreNotConnected(Empty(settings, m.apiToken, m.file), m.file.records);
    }
  }

  /** After any step a session is eligible if and only if it was and the step does not disturb that, or the
      step makes it so. */
  lemma StepQualifiesIff(m: Manager, c: Call, id: Id)
    requires Allowed(m, c)
    ensures MayBeHost(Apply(m, c), id) <==> (MayBeHost(m, id) && !Disturbs(m, c, id)) || Restores(m, c, id)
  {
    hide Lists, Records, VisitAll, LoadAll;
    match c
    case Creating(_, _, _, _) => CreateQualifiesIff(m, c, id);
    case Updating(_, _, _) => UpdateQualifiesIff(m, c, id);
    case Deleting(_, _) => DeleteQualifiesIff(m, c, id);
    case Changing(_, _) => ChangeQualifiesIff(m, c, id);
    case Restarting(settings) => RestartQualifiesNobody(m, settings, id);
    case _ =>
  }

  /** A session that was eligible is not so later if and only if some step disturbed that and none has
      restored it since. */
  lemma {:induction false} EligibleLaterIff(states: seq<Manager>, calls: seq<Call>, asked: nat, i: nat, id: Id)
    requires IsRun(states, calls) && asked <= i < |states| && MayBeHost(states[asked], id)
    ensures MayBeHost(states[i], id) <==> !DisturbedSince(states, calls, asked, i, id)
  {
    hide MayBeHost, Apply, Allowed, Disturbs, Restores, WasGranted;
    if i > asked {
      EligibleLaterIff(states, calls, asked, i - 1, id);
      assert states[i - 1 + 1] == Apply(states[i - 1], calls[i - 1]);
      EitherOr(states[i - 1], calls[i - 1], id);
      StepQualifiesIff(states[i - 1], calls[i - 1], id);
      OneMoreStep(states, calls, asked, i, id);
    }
  }

  ghost predicate DisturbedSince(states: seq<Manager>, calls: seq<Call>, asked: nat, i: nat, id: Id)
    requires asked <= i < |states| && |states| == |calls| + 1
  {
    exists j :: asked <= j < i && DisturbedAt(states, calls, j, i, id)
  }

  ghost predicate DisturbedAt(states: seq<Manager>, calls: seq<Call>, j: nat, i: nat, id: Id)
    requires j < i < |states| && |states| == |calls| + 1
  {
    Disturbs(states[j], calls[j], id) && forall l :: j < l < i ==> !Restores(states[l], calls[l], id)
  }

  lemma OneMoreStep(states: seq<Manager>, calls: seq<Call>, asked: nat, i: nat, id: Id)
    requires asked < i < |states| && |states| == |calls| + 1
    ensures DisturbedSince(states, calls, asked, i, id)
            <==> Disturbs(states[i - 1], calls[i - 1], id)
                 || (DisturbedSince(states, calls, asked, i - 1, id) && !Restores(states[i - 1], calls[i - 1], id))
  {
    hide Disturbs, Restores;
    var h: nat := i - 1;
    if Disturbs(states[h], calls[h], id) {
      assert DisturbedAt(states, calls, h, i, id);
    } else if Restores(states[h], calls[h], id) {
      assert forall j: nat :: asked <= j < h ==> !DisturbedAt(states, calls, j, i, id);
    } else {
      assert forall j: nat :: asked <= j < h ==>
        (DisturbedAt(states, calls, j, i, id) <==> DisturbedAt(states, calls, j, h, id));
    }
  }

  /** A request that was checked at one time and is granted later goes to a session that is not eligible if
      and only if a step between the two has disturbed that, and none after it has restored it. */
  lemma LateGrantIsWrongIff(states: seq<Manager>, calls: seq<Call>, i: nat)
    requires IsRun(states, calls) && i < |calls| && calls[i].Granting? && calls[i].id != ""
    ensures calls[i].asked <= i
    ensures GrantsWrongly(states[i], calls[i].id) <==> DisturbedSince(states, calls, calls[i].asked, i, calls[i].id)
  {
    hide MayBeHost, Apply, Allowed, DisturbedSince, GrantsWrongly, CheckRequest;
    var id, asked := calls[i].id, calls[i].asked;
    assert WasGranted(states, i, id, asked);
    PromptGrantIsRight(states[asked], id);
    WrongIsNotEligible(states[asked], id);
    EligibleLaterIff(states, calls, asked, i, id);
    WrongIsNotEligible(states[i], id);
  }

  lemma WrongIsNotEligible(m: Manager, id: Id)
    requires id != ""
    ensures GrantsWrongly(m, id) <==> !MayBeHost(m, id)
  {
  }

  /** Every run after which a session's request would be granted, and every step that disturbs that, make a
      run in which the grant comes after the step and is wrong. */
  lemma DisturbedGrantIsWrong(states: seq<Manager>, calls: seq<Call>, id: Id, x: Call)
    returns (states': seq<Manager>, calls': seq<Call>)
    requires IsRun(states, calls) && id != ""
    requires var m := states[|calls|];
             && id in m.sessions && m.sessions[id].connected && CheckRequest(m, id) == Done
             && Allowed(m, x) && !x.Granting? && Disturbs(m, x, id)
    ensures calls' == calls + [x, Granting(id, |calls|)] && IsRun(states', calls')
    ensures GrantsWrongly(states'[|calls| + 1], id) && !HostOk(states'[|calls| + 2])
  {
    hide MayBeHost, Apply, Allowed, Disturbs, GrantsWrongly, CheckRequest, HostOk, Fresh, Eligible;
    var n, m := |calls|, states[|calls|];
    var m1 := Apply(m, x);
    StepQualifiesIff(m, x, id);
    EitherOr(m, x, id);
    WrongIsNotEligible(m1, id);
    GrantKeepsIff(m1, id);
    GrantingIs(m1, id, n);
    states', calls' := states + [m1, SetHost(m1, id)], calls + [x, Granting(id, n)];
    forall i | 0 <= i < |calls'|
      ensures Allowed(states'[i], calls'[i]) && states'[i + 1] == Apply(states'[i], calls'[i])
    {
      assert i < n ==> states'[i] == states[i] && states'[i + 1] == states[i + 1];
    }
    forall i | 0 <= i < |calls'| && calls'[i].Granting? ensures WasGranted(states', i, calls'[i].id, calls'[i].asked) {
      assert i < n ==> WasGranted(states, i, calls[i].id, calls[i].asked);
    }
  }

  lemma EitherOr(m: Manager, c: Call, id: Id)
    ensures (Disturbs(m, c, id) ==> MayBeHost(m, id)) && (Restores(m, c, id) ==> !MayBeHost(m, id))
  {
  }

  lemma GrantingIs(m: Manager, id: Id, asked: nat)
    ensures Allowed(m, Granting(id, asked)) && Apply(m, Granting(id, asked)) == SetHost(m, id)
  {
  }

  const GUEST: Profile := Profile("a", false, true, true, true, true, true, true, true, true)

  /** A manager with one session, which is connected and may host. */
  function Ready(): Manager {
    Manager(map["t" := "a"], map["a" := Member("t", GUEST, true, None, false)], None, Settings(false, false, false),
            None, NotConfigured, [])
  }

  /** Steps of every kind that spoil the grant: the session disconnects, is deleted or loses a right, private
      mode or locked controls are turned on, or the manager is restarted. */
  function Spoilers(): set<Call> {
    {Disconnecting("a"), Deleting("a", []), Updating("a", GUEST.(canHost := false), ["a"]),
     Updating("a", GUEST.(canConnect := false), ["a"]), Updating("a", GUEST.(canLogin := false), ["a"]),
     Changing(Settings(true, false, false), ["a"]), Changing(Settings(false, true, false), ["a"]),
     Restarting(Settings(false, false, false))}
  }

  lemma SpoilersDisturb(x: Call)
    requires x in Spoilers()
    ensures Allowed(Ready(), x) && Disturbs(Ready(), x, "a") && !x.Granting?
  {
  }

  lemma GetsReady() returns (states: seq<Manager>, calls: seq<Call>)
    ensures IsRun(states, calls) && calls == [Creating("a", "t", GUEST, ["a"]), Connecting("a")]
    ensures states[2] == Ready() && CheckRequest(Ready(), "a") == Done
  {
    var m0 := Empty(Settings(false, false, false), None, NotConfigured);
    calls := [Creating("a", "t", GUEST, ["a"]), Connecting("a")];
    assert Lists(["a"], m0.sessions.Keys + {"a"});
    var m1 := Apply(m0, calls[0]);
    assert m1.sessions == map["a" := NewMember("t", GUEST)] && m1.tokens == map["t" := "a"];
    states := [m0, m1, Ready()];
  }

  /** A run for each of them in which the request is checked before it, and granted wrongly after it. */
  lemma SpoiledGrant(x: Call) returns (states: seq<Manager>, calls: seq<Call>)
    requires x in Spoilers()
    ensures IsRun(states, calls)
    ensures calls == [Creating("a", "t", GUEST, ["a"]), Connecting("a"), x, Granting("a", 2)]
    ensures GrantsWrongly(states[3], "a") && !HostOk(states[4])
  {
    hide IsRun, GrantsWrongly, HostOk, Spoilers, CheckRequest, Disturbs, Allowed;
    SpoilersDisturb(x);
    states, calls := GetsReady();
    states, calls := DisturbedGrantIsWrong(states, calls, "a", x);
  }

  // ---- the keyboard ---------------------------------------------------------------------------

  /** How often all keys have been released. */
  ghost function Resets(m: Manager): nat {
    multiset(m.effects)[KeysReset]
  }

  lemma EffectResets(m: Manager, e: Effect)
    ensures Resets(Effecting(m, e)) == Resets(m) + if e == KeysReset then 1 else 0
  {
  }

  /** The host lets go of control, or its connection ends before anything has taken control away. */
  ghost predicate HostLeaves(m: Manager, c: Call) {
    match c
    case Releasing(id) => IsHost(m, id)
    case Disconnecting(id) => IsHost(m, id)
    case Deleting(id, _) => IsHost(m, id)
    case Updating(id, p, _) => IsHost(m, id) && p.canHost && (!p.canConnect || !p.canLogin)
    case _ => false
  }

  lemma {:induction false} VisitAllResetsNone(m: Manager, order: seq<Id>)
    requires forall id :: id in order ==> id in m.sessions
    ensures Resets(VisitAll(m, order)) == Resets(m)
  {
    if order != [] {
      var before, id := VisitAll(m, order[..|order| - 1]), order[|order| - 1];
      VisitAllResetsNone(m, order[..|order| - 1]);
      PauseResetsNone(ClearHost(before), m.sessions[id].rtcPeer, PrivateModeEnabled(before, id));
      PauseResetsNone(before, m.sessions[id].rtcPeer, PrivateModeEnabled(before, id));
    }
  }

  lemma PauseResetsNone(m: Manager, p: Option<Peer>, paused: bool)
    ensures Resets(PauseIfAny(m, p, paused)) == Resets(m)
  {
  }

  lemma DestroyResetsNone(m: Manager, s: Member)
    ensures Resets(DestroyIfWatching(m, s)) == Resets(m)
    ensures DestroyIfWatching(m, s).hostId == m.hostId && DestroyIfWatching(m, s).sessions == m.sessions
  {
  }

  lemma DisconnectResets(m: Manager, id: Id)
    ensures Resets(SessionDisconnected(m, id)) == Resets(m) + if IsHost(m, id) then 1 else 0
  {
    EffectResets(m, KeysReset);
  }

  lemma UpdateResets(m: Manager, c: Call)
    requires HostOk(m) && HasHost(m) && Allowed(m, c) && c.Updating? && c.id in m.sessions
    ensures Resets(Apply(m, c)) == Resets(m) + if HostLeaves(m, c) then 1 else 0
  {
    hide Records, Resets, PauseIfAny, DestroyIfWatching, SessionDisconnected, ProfileChanged;
    var m0 := Save(WithProfile(m, c.id, c.profile), c.order);
    ProfileResets(m0, c.id);
    assert Resets(m0) == Resets(m) by { SameEffects(m, m0); }
  }

  lemma SameEffects(m: Manager, m': Manager)
    requires m'.effects == m.effects
    ensures Resets(m') == Resets(m)
  {
  }

  lemma ProfileResets(m: Manager, id: Id)
    requires HasHost(m) && id in m.sessions
    ensures var s := m.sessions[id]; var p := s.profile;
            Resets(ProfileChanged(m, id)) == Resets(m)
              + if IsHost(m, id) && p.canHost && (!p.canConnect || !p.canLogin) && s.connected then 1 else 0
  {
    hide Resets, PauseIfAny, DestroyIfWatching, SessionDisconnected;
    var s := m.sessions[id];
    var p := s.profile;
    var m1 := if !p.canHost && IsHost(m, id) then ClearHost(m) else m;
    SameEffects(m, m1);
    DestroyResetsNone(m1, s);
    var m2 := if !p.canConnect || !p.canLogin || !p.canWatch then DestroyIfWatching(m1, s) else m1;
    var off := SetConnected(m2, id, false);
    SameEffects(m2, off);
    DisconnectResets(off, id);
    var m3 := if (!p.canConnect || !p.canLogin) && s.connected then Disconnected(m2, id) else m2;
    assert m2 == RightsChanged(m, id);
    PauseResetsNone(m3, s.rtcPeer, PrivateModeEnabled(m, id));
  }

  lemma DeleteResets(m: Manager, c: Call)
    requires HostOk(m) && HasHost(m) && Allowed(m, c) && c.Deleting? && c.id in m.sessions
    ensures Resets(Apply(m, c)) == Resets(m) + if HostLeaves(m, c) then 1 else 0
  {
    hide Lists, Records, Resets, DestroyIfWatching, SessionDisconnected;
    var gone, s := Remove(m, c.id), m.sessions[c.id];
    SameEffects(m, gone);
    DisconnectResets(gone, c.id);
    DestroyResetsNone(if s.connected then SessionDisconnected(gone, c.id) else gone, s);
    SameEffects(Leave(gone, c.id, s), Apply(m, c));
  }

  lemma ChangeResets(m: Manager, c: Call)
    requires Allowed(m, c) && c.Changing?
    ensures Resets(Apply(m, c)) == Resets(m)
  {
    hide VisitAll, Resets;
    var m1 := m.(settings := c.settings);
    SameEffects(m, m1);
    VisitAllResetsNone(m1, c.order);
    SameEffects(if m.settings.privateMode != c.settings.privateMode then VisitAll(m1, c.order) else m1, Apply(m, c));
  }

  /** All keys are released exactly in such steps, and once. So a host who loses control by a settings change,
      or by losing CanHost, leaves pressed what it has pressed. */
  lemma KeysAreResetIff(m: Manager, c: Call)
    requires HostOk(m) && HasHost(m) && Allowed(m, c) && !c.Restarting?
    ensures Resets(Apply(m, c)) == Resets(m) + if HostLeaves(m, c) then 1 else 0
  {
    match c
    case Creating(_, _, _, _) => hide Lists, Records, Resets; SameEffects(m, Apply(m, c));
    case Updating(id, _, _) => if id in m.sessions { hide *; UpdateResets(m, c); }
    case Deleting(id, _) => if id in m.sessions { hide *; DeleteResets(m, c); }
    case Changing(_, _) => hide *; ChangeResets(m, c);
    case Disconnecting(id) =>
      hide Resets, SessionDisconnected;
      DisconnectResets(SetConnected(m, id, false), id);
      SameEffects(m, SetConnected(m, id, false));
    case Releasing(_) =>
      hide Resets;
      EffectResets(m, KeysReset);
      SameEffects(Effecting(m, KeysReset), ClearHost(Effecting(m, KeysReset)));
    case Connecting(_) => SameEffects(m, Apply(m, c));
    case Requesting(_) => SameEffects(m, Apply(m, c));
    case Granting(_, _) => SameEffects(m, Apply(m, c));
    case PeerSet(_, _) => SameEffects(m, Apply(m, c));
    case PeerChanging(_, _, _) => SameEffects(m, Apply(m, c));
    case Restarting(_) =>
  }
}
