/** The two indexes of the sessions, and what a restart makes of the file. */
module TokenIndex {
  import opened Options
  import opened ManagerSpec

  /** Tokens and sessions are inverse to each other. */
  ghost predicate IndexOk(tokens: map<Token, Id>, sessions: map<Id, Member>) {
    && (forall t :: t in tokens ==> tokens[t] in sessions && sessions[tokens[t]].token == t)
    && (forall id :: id in sessions ==> sessions[id].token in tokens && tokens[sessions[id].token] == id)
  }

  /** Looking up a token finds the session that holds it, the API session if none does and it is its
      token, and otherwise nothing. */
  lemma LookupIsRight(m: Manager, t: Token)
    requires IndexOk(m.tokens, m.sessions)
    ensures forall id :: GetByToken(m, t) == Session(id) <==> id in m.sessions && m.sessions[id].token == t
    ensures GetByToken(m, t) == ApiSession
            <==> m.apiToken == Some(t) && forall id :: id in m.sessions ==> m.sessions[id].token != t
  {
  }

  /** The records are the sessions, each once. */
  ghost predicate Describe(records: seq<Record>, sessions: map<Id, Member>) {
    && (forall i :: 0 <= i < |records| ==> IsRecordOf(records[i], sessions))
    && (forall i, j :: 0 <= i < j < |records| ==> records[i].id != records[j].id)
    && (forall id :: id in sessions ==> exists i :: 0 <= i < |records| && records[i].id == id)
  }

  ghost predicate IsRecordOf(r: Record, sessions: map<Id, Member>) {
    r.id in sessions && sessions[r.id].token == r.token && sessions[r.id].profile == r.profile
  }

  ghost predicate FileOk(file: File, sessions: map<Id, Member>) {
    match file
    case NotConfigured => true
    case Missing => sessions == map[]
    case Holding(records) => Describe(records, sessions)
  }

  ghost predicate ManagerOk(m: Manager) {
    IndexOk(m.tokens, m.sessions) && FileOk(m.file, m.sessions)
  }

  // ---- saving ---------------------------------------------------------------------------------

  lemma RecordsDescribe(sessions: map<Id, Member>, order: seq<Id>)
    requires Lists(order, sessions.Keys)
    ensures Describe(Records(sessions, order), sessions)
  {
    var rs := Records(sessions, order);
    forall id | id in sessions ensures exists i :: 0 <= i < |rs| && rs[i].id == id {
      var i :| 0 <= i < |order| && order[i] == id;
      assert rs[i].id == id;
    }
  }

  lemma SaveKeeps(m: Manager, order: seq<Id>)
    requires IndexOk(m.tokens, m.sessions) && Lists(order, m.sessions.Keys)
    ensures ManagerOk(Save(m, order))
    ensures Save(m, order) == m.(file := Save(m, order).file)
            && (Save(m, order).file.NotConfigured? <==> m.file.NotConfigured?)
    ensures !Save(m, order).file.Missing?
  {
    hide Records, Lists, Describe, IndexOk;
    RecordsDescribe(m.sessions, order);
  }

  // ---- loading --------------------------------------------------------------------------------

  /** No id and no token comes twice. */
  ghost predicate Distinct(records: seq<Record>) {
    forall i, j :: 0 <= i < j < |records| ==> records[i].id != records[j].id && records[i].token != records[j].token
  }

  ghost predicate Loaded(records: seq<Record>, tokens: map<Token, Id>, sessions: map<Id, Member>) {
    && (forall i :: 0 <= i < |records| ==>
          && records[i].id in sessions && sessions[records[i].id] == NewMember(records[i].token, records[i].profile)
          && records[i].token in tokens && tokens[records[i].token] == records[i].id)
    && (forall t :: t in tokens ==> exists i :: 0 <= i < |records| && records[i].token == t)
    && (forall id :: id in sessions ==> exists i :: 0 <= i < |records| && records[i].id == id)
  }

  lemma LoadedMore(records: seq<Record>, r: Record, tokens: map<Token, Id>, sessions: map<Id, Member>)
    requires Loaded(records, tokens, sessions) && Distinct(records + [r])
    ensures Loaded(records + [r], tokens[r.token := r.id], sessions[r.id := NewMember(r.token, r.profile)])
  {
    var more, tokens', sessions' :=
        records + [r], tokens[r.token := r.id], sessions[r.id := NewMember(r.token, r.profile)];
    forall i | 0 <= i < |more| ensures
        && more[i].id in sessions' && sessions'[more[i].id] == NewMember(more[i].token, more[i].profile)
        && more[i].token in tokens' && tokens'[more[i].token] == more[i].id {
      if i < |records| {
        assert more[i] == records[i] && more[|records|] == r;
      }
    }
    forall t | t in tokens' ensures exists i :: 0 <= i < |more| && more[i].token == t {
      if t == r.token { assert more[|records|].token == t; }
      else { var i :| 0 <= i < |records| && records[i].token == t; assert more[i].token == t; }
    }
    forall id | id in sessions' ensures exists i :: 0 <= i < |more| && more[i].id == id {
      if id == r.id { assert more[|records|].id == id; }
      else { var i :| 0 <= i < |records| && records[i].id == id; assert more[i].id == id; }
    }
  }

  lemma FrontDistinct(records: seq<Record>)
    requires Distinct(records) && records != []
    ensures Distinct(records[..|records| - 1])
  {
  }

  lemma {:induction false} LoadAllLoads(m: Manager, records: seq<Record>)
    requires m.tokens == map[] && m.sessions == map[] && Distinct(records)
    ensures var m' := LoadAll(m, records);
            Loaded(records, m'.tokens, m'.sessions) && m' == m.(tokens := m'.tokens, sessions := m'.sessions)
  {
    if records == [] {
      assert LoadAll(m, records) == m;
    } else {
      hide Loaded, Distinct, LoadAll;
      var front, r := records[..|records| - 1], records[|records| - 1];
      FrontDistinct(records);
      LoadAllLoads(m, front);
      LoadOneMore(m, front, r);
      var before := LoadAll(m, front);
      assert front + [r] == records;
      LoadedMore(front, r, before.tokens, before.sessions);
    }
  }

  /** The same sessions with the same tokens and profiles, none of them connected. */
  ghost predicate Restores(m: Manager, tokens: map<Token, Id>, sessions: map<Id, Member>) {
    && tokens == m.tokens
    && sessions.Keys == m.sessions.Keys
    && forall id :: id in m.sessions ==> sessions[id] == NewMember(m.sessions[id].token, m.sessions[id].profile)
  }

  lemma DescribedAreDistinct(records: seq<Record>, tokens: map<Token, Id>, sessions: map<Id, Member>)
    requires IndexOk(tokens, sessions) && Describe(records, sessions)
    ensures Distinct(records)
  {
    forall i, j | 0 <= i < j < |records| ensures records[i].token != records[j].token {
      assert IsRecordOf(records[i], sessions) && IsRecordOf(records[j], sessions);
    }
  }

  /** What becomes of record i. */
  lemma LoadedRecord(records: seq<Record>, tokens: map<Token, Id>, sessions: map<Id, Member>, i: nat)
    requires Loaded(records, tokens, sessions) && i < |records|
    ensures var r := records[i];
            && r.id in sessions && sessions[r.id] == NewMember(r.token, r.profile)
            && r.token in tokens && tokens[r.token] == r.id
  {
  }

  lemma LoadedTokenFrom(records: seq<Record>, tokens: map<Token, Id>, sessions: map<Id, Member>, t: Token)
    returns (i: nat)
    requires Loaded(records, tokens, sessions) && t in tokens
    ensures i < |records| && records[i].token == t
  {
    i :| 0 <= i < |records| && records[i].token == t;
  }

  lemma LoadedSessionFrom(records: seq<Record>, tokens: map<Token, Id>, sessions: map<Id, Member>, id: Id)
    returns (i: nat)
    requires Loaded(records, tokens, sessions) && id in sessions
    ensures i < |records| && records[i].id == id
  {
    i :| 0 <= i < |records| && records[i].id == id;
  }

  lemma DescribedRecord(records: seq<Record>, sessions: map<Id, Member>, i: nat)
    requires Describe(records, sessions) && i < |records|
    ensures IsRecordOf(records[i], sessions)
  {
  }

  lemma DescribedBy(records: seq<Record>, sessions: map<Id, Member>, id: Id) returns (i: nat)
    requires Describe(records, sessions) && id in sessions
    ensures i < |records| && records[i].id == id && IsRecordOf(records[i], sessions)
  {
    i :| 0 <= i < |records| && records[i].id == id;
  }

  lemma LoadedRestoresSessions(m: Manager, records: seq<Record>, tokens: map<Token, Id>, sessions: map<Id, Member>)
    requires Describe(records, m.sessions) && Loaded(records, tokens, sessions)
    ensures sessions.Keys == m.sessions.Keys
    ensures forall id :: id in m.sessions ==> sessions[id] == NewMember(m.sessions[id].token, m.sessions[id].profile)
  {
    hide Describe, Loaded;
    forall id | id in m.sessions
      ensures id in sessions && sessions[id] == NewMember(m.sessions[id].token, m.sessions[id].profile)
    {
      var i := DescribedBy(records, m.sessions, id);
      LoadedRecord(records, tokens, sessions, i);
    }
    forall id | id in sessions ensures id in m.sessions {
      var i := LoadedSessionFrom(records, tokens, sessions, id);
      DescribedRecord(records, m.sessions, i);
    }
  }

  lemma LoadedRestoresTokens(m: Manager, records: seq<Record>, tokens: map<Token, Id>, sessions: map<Id, Member>)
    requires IndexOk(m.tokens, m.sessions) && Describe(records, m.sessions) && Loaded(records, tokens, sessions)
    ensures tokens == m.tokens
  {
    hide Describe, Loaded;
    forall t | t in m.tokens ensures t in tokens && tokens[t] == m.tokens[t] {
      var i := DescribedBy(records, m.sessions, m.tokens[t]);
      LoadedRecord(records, tokens, sessions, i);
    }
    forall t | t in tokens ensures t in m.tokens {
      var i := LoadedTokenFrom(records, tokens, sessions, t);
      DescribedRecord(records, m.sessions, i);
    }
  }

  /** Loading records that describe the sessions, in whatever order, restores them. */
  lemma LoadRestores(m: Manager, settings: Settings, records: seq<Record>)
    requires IndexOk(m.tokens, m.sessions) && Describe(records, m.sessions)
    ensures var m' := New(settings, m.apiToken, Holding(records)); Restores(m, m'.tokens, m'.sessions)
  {
    hide Loaded, IndexOk, Describe, Distinct;
    var empty := Empty(settings, m.apiToken, Holding(records));
    DescribedAreDistinct(records, m.tokens, m.sessions);
    LoadAllLoads(empty, records);
    var m' := LoadAll(empty, records);
    LoadedRestoresSessions(m, records, m'.tokens, m'.sessions);
    LoadedRestoresTokens(m, records, m'.tokens, m'.sessions);
  }

  /** Loading what was saved gives back the sessions, in whatever order they were written. */
  lemma LoadUndoesSave(m: Manager, settings: Settings, order: seq<Id>)
    requires IndexOk(m.tokens, m.sessions) && Lists(order, m.sessions.Keys) && !m.file.NotConfigured?
    ensures var m' := New(settings, m.apiToken, Save(m, order).file); Restores(m, m'.tokens, m'.sessions)
  {
    hide IndexOk, Records, Describe, Restores;
    RecordsDescribe(m.sessions, order);
    LoadRestores(m, settings, Records(m.sessions, order));
  }

  // ---- each step ------------------------------------------------------------------------------

  lemma InsertKeeps(m: Manager, id: Id, token: Token, p: Profile)
    requires IndexOk(m.tokens, m.sessions) && id !in m.sessions && token !in m.tokens
    ensures IndexOk(Insert(m, id, token, p).tokens, Insert(m, id, token, p).sessions)
  {
  }

  lemma RemoveKeeps(m: Manager, id: Id)
    requires IndexOk(m.tokens, m.sessions) && id in m.sessions
    ensures IndexOk(Remove(m, id).tokens, Remove(m, id).sessions)
  {
  }

  lemma ProfileKeeps(m: Manager, id: Id, p: Profile)
    requires IndexOk(m.tokens, m.sessions) && id in m.sessions
    ensures IndexOk(m.tokens, WithProfile(m, id, p).sessions)
  {
  }

  /** What a session does about its connections concerns neither index nor file. */
  lemma ConnectionKeeps(m: Manager, m': Manager, id: Id)
    requires ManagerOk(m) && id in m.sessions && m'.tokens == m.tokens && m'.file == m.file
    requires id in m'.sessions && m'.sessions == m.sessions[id := m'.sessions[id]]
    requires m'.sessions[id].token == m.sessions[id].token && m'.sessions[id].profile == m.sessions[id].profile
    ensures ManagerOk(m')
  {
    if m.file.Holding? {
      var rs := m.file.records;
      forall i | 0 <= i < |rs| ensures IsRecordOf(rs[i], m'.sessions) {
        assert IsRecordOf(rs[i], m.sessions);
      }
    }
  }

  lemma CreateKeeps(m: Manager, c: Call)
    requires ManagerOk(m) && c.Creating? && Allowed(m, c)
    ensures ManagerOk(Apply(m, c))
  {
    hide IndexOk, FileOk;
    if CanCreate(m, c.id, c.token).Ok? {
      var m1 := Insert(m, c.id, c.token, c.profile);
      InsertKeeps(m, c.id, c.token, c.profile);
      assert m1.sessions.Keys == m.sessions.Keys + {c.id};
      hide Lists, Records;
      SaveKeeps(m1, c.order);
    }
  }

  lemma ProfileChangedKeeps(m: Manager, id: Id)
    requires ManagerOk(m) && id in m.sessions
    ensures ManagerOk(ProfileChanged(m, id))
  {
    hide IndexOk, FileOk, PrivateModeEnabled;
    ConnectionKeeps(m, ProfileChanged(m, id), id);
  }

  lemma UpdateKeeps(m: Manager, c: Call)
    requires ManagerOk(m) && c.Updating? && Allowed(m, c)
    ensures ManagerOk(Apply(m, c))
  {
    hide IndexOk, FileOk, ProfileChanged;
    if c.id in m.sessions {
      var m1 := WithProfile(m, c.id, c.profile);
      ProfileKeeps(m, c.id, c.profile);
      assert m1.sessions.Keys == m.sessions.Keys;
      hide Lists, Records;
      SaveKeeps(m1, c.order);
      ProfileChangedKeeps(Save(m1, c.order), c.id);
    }
  }

  lemma DeleteKeeps(m: Manager, c: Call)
    requires ManagerOk(m) && c.Deleting? && Allowed(m, c)
    ensures ManagerOk(Apply(m, c))
  {
    hide IndexOk, FileOk;
    if c.id in m.sessions {
      var gone := Remove(m, c.id);
      RemoveKeeps(m, c.id);
      assert gone.sessions.Keys == m.sessions.Keys - {c.id};
      hide Lists, Records;
      SaveKeeps(ManagerSpec.Leave(gone, c.id, m.sessions[c.id]), c.order);
    }
  }

  lemma {:induction false} VisitAllSame(m: Manager, order: seq<Id>)
    requires forall id :: id in order ==> id in m.sessions
    ensures var m' := VisitAll(m, order); m'.tokens == m.tokens && m'.sessions == m.sessions && m'.file == m.file
  {
    if order != [] {
      VisitAllSame(m, order[..|order| - 1]);
    }
  }

  lemma ChangeKeeps(m: Manager, c: Call)
    requires ManagerOk(m) && c.Changing? && Allowed(m, c)
    ensures ManagerOk(Apply(m, c))
  {
    hide IndexOk, FileOk, VisitAll;
    VisitAllSame(m.(settings := c.settings), c.order);
  }

  lemma RestoredIsOk(m: Manager, tokens: map<Token, Id>, sessions: map<Id, Member>)
    requires ManagerOk(m) && m.file.Holding? && Restores(m, tokens, sessions)
    ensures IndexOk(tokens, sessions) && FileOk(m.file, sessions)
  {
    var rs := m.file.records;
    forall i | 0 <= i < |rs| ensures IsRecordOf(rs[i], sessions) {
      assert IsRecordOf(rs[i], m.sessions);
    }
  }

  lemma {:induction false} LoadAllKeepsFile(m: Manager, records: seq<Record>)
    ensures LoadAll(m, records).file == m.file
  {
    if records != [] {
      LoadAllKeepsFile(m, records[..|records| - 1]);
    }
  }

  lemma RestartKeeps(m: Manager, settings: Settings)
    requires ManagerOk(m)
    ensures ManagerOk(New(settings, m.apiToken, m.file))
  {
    if m.file.Holding? {
      hide IndexOk, Describe, Restores;
      LoadRestores(m, settings, m.file.records);
      var m' := New(settings, m.apiToken, m.file);
      RestoredIsOk(m, m'.tokens, m'.sessions);
      LoadAllKeepsFile(Empty(settings, m.apiToken, m.file), m.file.records);
    }
  }

  // ---- over any run ---------------------------------------------------------------------------

  lemma ApplyKeeps(m: Manager, c: Call)
    requires ManagerOk(m) && Allowed(m, c)
    ensures ManagerOk(Apply(m, c))
  {
    if c.Creating? { hide *; CreateKeeps(m, c); }
    else if c.Updating? { hide *; UpdateKeeps(m, c); }
    else if c.Deleting? { hide *; DeleteKeeps(m, c); }
    else if c.Connecting? || c.Disconnecting? || c.PeerSet? || c.PeerChanging? {
      hide IndexOk, FileOk;
      ConnectionKeeps(m, Apply(m, c), c.id);
    }
    else if c.Changing? { hide *; ChangeKeeps(m, c); }
    else if c.Restarting? { RestartKeeps(m, c.settings); }
  }

  /** After any run the tokens and the sessions are inverse to each other, and the file, if there is to be
      one, holds the sessions. */
  lemma {:induction false} IndexesAgree(states: seq<Manager>, calls: seq<Call>, n: nat)
    requires IsRun(states, calls) && n < |states|
    ensures ManagerOk(states[n])
  {
    if n > 0 {
      hide ManagerOk, Apply, Allowed;
      IndexesAgree(states, calls, n - 1);
      ApplyKeeps(states[n - 1], calls[n - 1]);
    }
  }

  /** Wherever in a run the process is restarted, if a file is configured it comes back with the same ids,
      tokens and profiles. */
  lemma RestartRestores(states: seq<Manager>, calls: seq<Call>, n: nat, settings: Settings)
    requires IsRun(states, calls) && n < |states| && !states[n].file.NotConfigured?
    ensures var m' := New(settings, states[n].apiToken, states[n].file); Restores(states[n], m'.tokens, m'.sessions)
  {
    hide Apply, Allowed, IndexOk, Describe;
    IndexesAgree(states, calls, n);
    if states[n].file.Holding? {
      LoadRestores(states[n], settings, states[n].file.records);
    } else {
      NoSessionsNoTokens(states[n]);
    }
  }

  lemma NoSessionsNoTokens(m: Manager)
    requires IndexOk(m.tokens, m.sessions) && m.sessions == map[]
    ensures m.tokens == map[]
  {
  }
}
