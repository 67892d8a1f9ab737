/** The session manager as functions of values: the session and token indexes, the host, the settings and
    the file the sessions are kept in. */
module ManagerSpec {
  import opened Options

  type Id = string

  type Token = string

  datatype Profile = Profile(
    name: string,
    isAdmin: bool, canLogin: bool, canConnect: bool, canWatch: bool, canHost: bool,
    canShareMedia: bool, canAccessClipboard: bool, sendsInactiveCursor: bool, canSeeInactiveCursors: bool)

  type Peer = nat

  /** `rtcPeer` is the current WebRTC peer of the session, if it has one. */
  datatype Member = Member(token: Token, profile: Profile, connected: bool, rtcPeer: Option<Peer>, watching: bool)

  function NewMember(token: Token, profile: Profile): Member {
    Member(token, profile, false, None, false)
  }

  /** What the manager has others do: release all keys, or destroy, pause or unpause a WebRTC peer. */
  datatype Effect = KeysReset | PeerDestroyed(peer: Option<Peer>) | PeerPaused(pausedPeer: Peer, paused: bool)

  datatype Settings = Settings(privateMode: bool, lockedControls: bool, implicitHosting: bool)

  datatype Record = Record(id: Id, token: Token, profile: Profile)

  /** No file is configured, or there is none yet, or it holds what was written last. */
  datatype File = NotConfigured | Missing | Holding(records: seq<Record>)

  /** `hostId` is absent until it is first stored; clearing the host stores the empty string. */
  datatype Manager = Manager(
    tokens: map<Token, Id>,
    sessions: map<Id, Member>,
    hostId: Option<Id>,
    settings: Settings,
    apiToken: Option<Token>,
    file: File,
    effects: seq<Effect>)

  function Effecting(m: Manager, e: Effect): Manager {
    m.(effects := m.effects + [e])
  }

  // ---- the file -------------------------------------------------------------------------------

  /** The order names each of the given ids once. */
  ghost predicate Lists(order: seq<Id>, ids: set<Id>) {
    && (forall id :: id in order <==> id in ids)
    && (forall i, j :: 0 <= i < j < |order| ==> order[i] != order[j])
  }

  function Records(sessions: map<Id, Member>, order: seq<Id>): seq<Record>
    requires forall id :: id in order ==> id in sessions
  {
    seq(|order|, i requires 0 <= i < |order| =>
      assert order[i] in order; Record(order[i], sessions[order[i]].token, sessions[order[i]].profile))
  }

  function Save(m: Manager, order: seq<Id>): Manager
    requires forall id :: id in order ==> id in m.sessions
  {
    if m.file.NotConfigured? then m else m.(file := Holding(Records(m.sessions, order)))
  }

  function Insert(m: Manager, id: Id, token: Token, profile: Profile): Manager {
    m.(tokens := m.tokens[token := id], sessions := m.sessions[id := NewMember(token, profile)])
  }

  function LoadAll(m: Manager, records: seq<Record>): Manager {
    if records == [] then m
    else
      var r := records[|records| - 1];
      Insert(LoadAll(m, records[..|records| - 1]), r.id, r.token, r.profile)
  }

  lemma LoadNone(m: Manager)
    ensures LoadAll(m, []) == m
  {
  }

  lemma LoadOneMore(m: Manager, front: seq<Record>, r: Record)
    ensures LoadAll(m, front + [r]) == Insert(LoadAll(m, front), r.id, r.token, r.profile)
  {
    assert (front + [r])[..|front|] == front;
  }

  function Empty(settings: Settings, apiToken: Option<Token>, file: File): Manager {
    Manager(map[], map[], None, settings, apiToken, file, [])
  }

  /** A new manager, with the sessions that are in the file. */
  function New(settings: Settings, apiToken: Option<Token>, file: File): Manager {
    var empty := Empty(settings, apiToken, file);
    if file.Holding? then LoadAll(empty, file.records) else empty
  }

  // ---- the indexes ----------------------------------------------------------------------------

  datatype Created = Ok | SessionAlreadyExists | TokenAlreadyExists

  function CanCreate(m: Manager, id: Id, token: Token): Created {
    if id in m.sessions then SessionAlreadyExists else if token in m.tokens then TokenAlreadyExists else Ok
  }

  function Remove(m: Manager, id: Id): Manager
    requires id in m.sessions
  {
    m.(tokens := m.tokens - {m.sessions[id].token}, sessions := m.sessions - {id})
  }

  datatype Found = NoSession | Session(id: Id) | ApiSession

  function GetByToken(m: Manager, token: Token): Found {
    if token in m.tokens then
      if m.tokens[token] in m.sessions then Session(m.tokens[token]) else NoSession
    else if m.apiToken == Some(token) then ApiSession
    else NoSession
  }

  // ---- the host -------------------------------------------------------------------------------

  function SetHost(m: Manager, id: Id): Manager {
    m.(hostId := Some(id))
  }

  function ClearHost(m: Manager): Manager {
    m.(hostId := Some(""))
  }

  function IsHost(m: Manager, id: Id): bool {
    m.hostId == Some(id)
  }

  function GetHost(m: Manager): Option<Id> {
    match m.hostId
    case None => None
    case Some(h) => if h != "" && h in m.sessions then Some(h) else None
  }

  function PrivateModeEnabled(m: Manager, id: Id): bool
    requires id in m.sessions
  {
    m.settings.privateMode && !m.sessions[id].profile.isAdmin
  }

  datatype Control = Done | NotAllowedToHost | NotTheHost | AlreadyTheHost | AlreadyHosted

  function ControlRelease(m: Manager, id: Id): (Manager, Control)
    requires id in m.sessions
  {
    if !m.sessions[id].profile.canHost || PrivateModeEnabled(m, id) then (m, NotAllowedToHost)
    else if !IsHost(m, id) then (m, NotTheHost)
    else (ClearHost(Effecting(m, KeysReset)), Done)
  }

  /** What a request is answered with, before anything is done about it. */
  function CheckRequest(m: Manager, id: Id): Control
    requires id in m.sessions
  {
    var p := m.sessions[id].profile;
    if !p.canHost || PrivateModeEnabled(m, id) then NotAllowedToHost
    else if IsHost(m, id) then AlreadyTheHost
    else if m.settings.lockedControls && !p.isAdmin then NotAllowedToHost
    else if !m.settings.implicitHosting && GetHost(m).Some? then AlreadyHosted
    else Done
  }

  function ControlRequest(m: Manager, id: Id): (Manager, Control)
    requires id in m.sessions
  {
    var result := CheckRequest(m, id);
    (if result == Done then SetHost(m, id) else m, result)
  }

  function SetConnected(m: Manager, id: Id, connected: bool): Manager
    requires id in m.sessions
  {
    m.(sessions := m.sessions[id := m.sessions[id].(connected := connected)])
  }

  /** What listens to disconnects: a host that goes gives up control. */
  function SessionDisconnected(m: Manager, id: Id): Manager {
    if IsHost(m, id) then ClearHost(Effecting(m, KeysReset)) else m
  }

  function Disconnected(m: Manager, id: Id): Manager
    requires id in m.sessions
  {
    SessionDisconnected(SetConnected(m, id, false), id)
  }

  function SetPeer(m: Manager, id: Id, p: Peer): Manager
    requires id in m.sessions
  {
    m.(sessions := m.sessions[id := m.sessions[id].(rtcPeer := Some(p))])
  }

  /** Nothing happens for a peer that is not the current one. */
  function PeerState(m: Manager, id: Id, p: Peer, up: bool): Manager
    requires id in m.sessions
  {
    var s := m.sessions[id];
    if s.rtcPeer != Some(p) then m
    else m.(sessions := m.sessions[id := s.(watching := up, rtcPeer := if up then s.rtcPeer else None)])
  }

  function DestroyIfWatching(m: Manager, s: Member): (m': Manager)
    ensures m'.sessions == m.sessions && m'.hostId == m.hostId
  {
    if s.watching then Effecting(m, PeerDestroyed(s.rtcPeer)) else m
  }

  function PauseIfAny(m: Manager, p: Option<Peer>, paused: bool): (m': Manager)
    ensures m'.sessions == m.sessions && m'.hostId == m.hostId
  {
    if p.Some? then Effecting(m, PeerPaused(p.value, paused)) else m
  }

  // ---- profiles, deletion, settings -----------------------------------------------------------

  /** A host that may not host gives up control, and a WebRTC peer that may not watch is destroyed. */
  function RightsChanged(m: Manager, id: Id): (m': Manager)
    requires id in m.sessions
    ensures m'.sessions == m.sessions
  {
    var s := m.sessions[id];
    var p := s.profile;
    var m1 := if !p.canHost && IsHost(m, id) then ClearHost(m) else m;
    if !p.canConnect || !p.canLogin || !p.canWatch then DestroyIfWatching(m1, s) else m1
  }

  function ProfileChanged(m: Manager, id: Id): Manager
    requires id in m.sessions
  {
    var s := m.sessions[id];
    var p := s.profile;
    var m1 := RightsChanged(m, id);
    var m2 := if (!p.canConnect || !p.canLogin) && s.connected then Disconnected(m1, id) else m1;
    PauseIfAny(m2, s.rtcPeer, PrivateModeEnabled(m, id))
  }

  function WithProfile(m: Manager, id: Id, profile: Profile): Manager
    requires id in m.sessions
  {
    m.(sessions := m.sessions[id := m.sessions[id].(profile := profile)])
  }

  /** In each of the next three, `order` is the order in which the sessions are written to the file. */
  function Create(m: Manager, id: Id, token: Token, profile: Profile, order: seq<Id>): Manager
    requires CanCreate(m, id, token).Ok? ==> forall s :: s in order ==> s in m.sessions || s == id
  {
    if CanCreate(m, id, token).Ok? then Save(Insert(m, id, token, profile), order) else m
  }

  function Update(m: Manager, id: Id, profile: Profile, order: seq<Id>): Manager
    requires forall s :: s in order ==> s in m.sessions
  {
    if id !in m.sessions then m
    else ProfileChanged(Save(WithProfile(m, id, profile), order), id)
  }

  /** The connections of a session that is not filed any more end. */
  function Leave(m: Manager, id: Id, s: Member): Manager {
    DestroyIfWatching(if s.connected then SessionDisconnected(m, id) else m, s)
  }

  function Delete(m: Manager, id: Id, order: seq<Id>): Manager
    requires forall s :: s in order ==> s in m.sessions && s != id
  {
    if id !in m.sessions then m
    else
      Save(Leave(Remove(m, id), id, m.sessions[id]), order)
  }

  /** One visit of the loop: whoever has private mode enabled gives up control, and the WebRTC peer is
      paused or unpaused. */
  function VisitOne(m: Manager, id: Id): Manager
    requires id in m.sessions
  {
    var enabled := PrivateModeEnabled(m, id);
    PauseIfAny(if enabled && IsHost(m, id) then ClearHost(m) else m, m.sessions[id].rtcPeer, enabled)
  }

  /** Visit the sessions in the given order. */
  function VisitAll(m: Manager, order: seq<Id>): (m': Manager)
    requires forall id :: id in order ==> id in m.sessions
    ensures m'.sessions == m.sessions
  {
    if order == [] then m else VisitOne(VisitAll(m, order[..|order| - 1]), order[|order| - 1])
  }

  function UpdateSettings(m: Manager, settings: Settings, order: seq<Id>): Manager
    requires forall id :: id in order ==> id in m.sessions
  {
    var m1 := m.(settings := settings);
    var m2 := if m.settings.privateMode != settings.privateMode then VisitAll(m1, order) else m1;
    if !m.settings.lockedControls && settings.lockedControls && NonAdminHosts(m2) then ClearHost(m2) else m2
  }

  function NonAdminHosts(m: Manager): bool {
    GetHost(m).Some? && !m.sessions[GetHost(m).value].profile.isAdmin
  }

  // ---- runs -----------------------------------------------------------------------------------

  datatype Call =
    | Creating(id: Id, token: Token, profile: Profile, order: seq<Id>)
    | Updating(id: Id, profile: Profile, order: seq<Id>)
    | Deleting(id: Id, order: seq<Id>)
    | Connecting(id: Id)
    | Disconnecting(id: Id)
    | Requesting(id: Id)
    | Granting(id: Id, asked: nat)
    | Releasing(id: Id)
    | PeerSet(id: Id, p: Peer)
    | PeerChanging(id: Id, p: Peer, up: bool)
    | Changing(settings: Settings, order: seq<Id>)
    | Restarting(settings: Settings)

  /** When a call can come: it is made on a session there is, control is requested by a session that is
      connected, and loops visit each session once. A request may also be checked at one time and granted
      later; see IsRun. */
  ghost predicate Allowed(m: Manager, c: Call) {
    match c
    case Creating(id, token, _, order) =>
      CanCreate(m, id, token).Ok? ==> Lists(order, m.sessions.Keys + {id})
    case Updating(_, _, order) => Lists(order, m.sessions.Keys)
    case Deleting(id, order) => Lists(order, m.sessions.Keys - {id})
    case Connecting(id) => id in m.sessions
    case Disconnecting(id) => id in m.sessions && m.sessions[id].connected
    case Requesting(id) => id in m.sessions && m.sessions[id].connected
    case Granting(_, _) => true
    case Releasing(id) => id in m.sessions
    case PeerSet(id, _) => id in m.sessions
    case PeerChanging(id, _, _) => id in m.sessions
    case Changing(_, order) => Lists(order, m.sessions.Keys)
    case Restarting(_) => true
  }

  ghost function Apply(m: Manager, c: Call): Manager
    requires Allowed(m, c)
  {
    match c
    case Creating(id, token, profile, order) => Create(m, id, token, profile, order)
    case Updating(id, profile, order) => Update(m, id, profile, order)
    case Deleting(id, order) => Delete(m, id, order)
    case Connecting(id) => SetConnected(m, id, true)
    case Disconnecting(id) => Disconnected(m, id)
    case Requesting(id) => ControlRequest(m, id).0
    case Granting(id, _) => SetHost(m, id)
    case Releasing(id) => ControlRelease(m, id).0
    case PeerSet(id, p) => SetPeer(m, id, p)
    case PeerChanging(id, p, up) => PeerState(m, id, p, up)
    case Changing(settings, order) => UpdateSettings(m, settings, order)
    case Restarting(settings) => New(settings, m.apiToken, m.file)
  }

  /** A new manager that found no file. */
  ghost predicate Fresh(m: Manager) {
    !m.file.Holding? && m == New(m.settings, m.apiToken, m.file)
  }

  ghost predicate IsRun(states: seq<Manager>, calls: seq<Call>) {
    && |states| == |calls| + 1
    && Fresh(states[0])
    && (forall i :: 0 <= i < |calls| ==> Allowed(states[i], calls[i]) && states[i + 1] == Apply(states[i], calls[i]))
    && forall i :: 0 <= i < |calls| && calls[i].Granting? ==> WasGranted(states, i, calls[i].id, calls[i].asked)
  }

  /** The request that is granted in step i was checked, with success, in a state before. */
  ghost predicate WasGranted(states: seq<Manager>, i: nat, id: Id, asked: nat)
    requires i < |states|
  {
    asked <= i && id in states[asked].sessions && states[asked].sessions[id].connected
    && CheckRequest(states[asked], id) == Done
  }
}
