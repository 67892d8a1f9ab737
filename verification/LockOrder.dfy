/** Lock protocol of peers, tracks and stream sinks, with every lock and unlock a step of its own.

    A thread runs a sequence of calls; a call is flattened to the locks it takes and gives back, on
    whichever branch it goes. The main results: if every move goes between two distinct sinks then
    no reachable state is a deadlock, and if some move names one sink twice then a deadlock is
    reachable. */
module LockOrder {

  import opened Options

  datatype Lock =
    | PeerMu(peer: nat)           // WebRTCPeerCtx.mu
    | TrackMu(track: nat)         // Track.streamMu
    | MoveMu                      // moveSinkListenerMu, the global one
    | SinkMu(sink: nat)           // StreamSinkManagerCtx.mu
    | PipelineMu(sink: nat)       // StreamSinkManagerCtx.pipelineMu
    | ListenersMu(sink: nat)      // StreamSinkManagerCtx.listenersMu

  datatype Instr = Acquire(lock: Lock) | Release(lock: Lock)

  /** What a sink method does to the locks depends on its branch: whether the sink had no listener
      (`first`, `last`), and whether creating the pipeline failed. */
  datatype SinkCall =
    | AddListener(sink: nat, first: bool, fails: bool)
    | RemoveListener(sink: nat, last: bool)
    | MoveListenerTo(source: nat, target: nat, first: bool, fails: bool, last: bool)
    | CreatePipeline(sink: nat)
    | DestroyPipeline(sink: nat)
    | ListenersCount(sink: nat)
    | OnSample(sink: nat)

  /** One piece of work done while a peer is locked. */
  datatype Part = OnSink(call: SinkCall) | OnTrack(track: nat, inner: Option<SinkCall>)

  datatype Call = Plain(part: Part) | OnPeer(peer: nat, parts: seq<Part>)

  type Job = seq<Call>

  // ---- the code of the calls ------------------------------------------------------------------

  function Guarded(l: Lock, body: seq<Instr>): seq<Instr> {
    [Acquire(l)] + body + [Release(l)]
  }

  function Brief(l: Lock): seq<Instr> {
    Guarded(l, [])
  }

  /** addListener and removeListener change the maps and then count them, each under listenersMu. */
  function TouchListeners(s: nat): seq<Instr> {
    Brief(ListenersMu(s)) + Brief(ListenersMu(s))
  }

  function MaybePipeline(s: nat, needed: bool): seq<Instr> {
    if needed then Brief(PipelineMu(s)) else []
  }

  function SinkCode(c: SinkCall): seq<Instr> {
    match c
    case AddListener(s, first, fails) =>
      Guarded(SinkMu(s), MaybePipeline(s, first) + (if fails then [] else TouchListeners(s)))
    case RemoveListener(s, last) =>
      Guarded(SinkMu(s), TouchListeners(s) + MaybePipeline(s, last))
    case MoveListenerTo(s, t, first, fails, last) =>
      [Acquire(MoveMu), Acquire(SinkMu(s)), Acquire(SinkMu(t)), Release(MoveMu)]
      + (MaybePipeline(t, first)
         + (if fails then [] else TouchListeners(s) + TouchListeners(t) + MaybePipeline(s, last)))
      + [Release(SinkMu(t)), Release(SinkMu(s))]
    case CreatePipeline(s) => Brief(PipelineMu(s))
    case DestroyPipeline(s) => Brief(PipelineMu(s))
    case ListenersCount(s) => Brief(ListenersMu(s))
    case OnSample(s) => Brief(ListenersMu(s))
  }

  function PartCode(p: Part): seq<Instr> {
    match p
    case OnSink(c) => SinkCode(c)
    case OnTrack(t, inner) => Guarded(TrackMu(t), if inner.None? then [] else SinkCode(inner.value))
  }

  function PartsCode(ps: seq<Part>): seq<Instr> {
    if ps == [] then [] else PartCode(ps[0]) + PartsCode(ps[1..])
  }

  function CallCode(c: Call): seq<Instr> {
    match c
    case Plain(p) => PartCode(p)
    case OnPeer(p, parts) => Guarded(PeerMu(p), PartsCode(parts))
  }

  function JobCode(job: Job): seq<Instr> {
    if job == [] then [] else CallCode(job[0]) + JobCode(job[1..])
  }

  // ---- which calls name one sink twice --------------------------------------------------------

  predicate SinkCallDistinct(c: SinkCall) {
    c.MoveListenerTo? ==> c.source != c.target
  }

  predicate PartDistinct(p: Part) {
    match p
    case OnSink(c) => SinkCallDistinct(c)
    case OnTrack(_, inner) => inner.Some? ==> SinkCallDistinct(inner.value)
  }

  predicate PartsDistinct(ps: seq<Part>) {
    forall p :: p in ps ==> PartDistinct(p)
  }

  predicate CallDistinct(c: Call) {
    match c
    case Plain(p) => PartDistinct(p)
    case OnPeer(_, parts) => PartsDistinct(parts)
  }

  /** Every move in the job goes between two distinct sinks. */
  predicate JobDistinct(job: Job) {
    forall c :: c in job ==> CallDistinct(c)
  }

  // ---- the concurrent machine -----------------------------------------------------------------

  /** `todo[i]` is what thread i has left to do, `owner` who holds which mutex. */
  datatype State = State(todo: seq<seq<Instr>>, owner: map<Lock, nat>)

  function Init(jobs: seq<Job>): State {
    State(seq(|jobs|, i requires 0 <= i < |jobs| => JobCode(jobs[i])), map[])
  }

  predicate Unfinished(s: State, i: nat) {
    i < |s.todo| && s.todo[i] != []
  }

  /** Thread i can take its next step: a lock is free, or an unlock is of a mutex it holds. */
  predicate Enabled(s: State, i: nat) {
    && Unfinished(s, i)
    && match s.todo[i][0]
       case Acquire(l) => l !in s.owner
       case Release(l) => l in s.owner && s.owner[l] == i
  }

  function Next(s: State, i: nat): State
    requires Enabled(s, i)
  {
    State(s.todo[i := s.todo[i][1..]],
          match s.todo[i][0]
          case Acquire(l) => s.owner[l := i]
          case Release(l) => s.owner - {l})
  }

  /** The state after letting the threads in `schedule` step one after another, if they all can. */
  function Execute(s: State, schedule: seq<nat>): Option<State>
    decreases |schedule|
  {
    if schedule == [] then Some(s)
    else if Enabled(s, schedule[0]) then Execute(Next(s, schedule[0]), schedule[1..])
    else None
  }

  ghost predicate Deadlocked(s: State) {
    && (exists i :: Unfinished(s, i))
    && (forall i :: !Enabled(s, i))
  }

  ghost predicate DeadlockReachable(jobs: seq<Job>) {
    exists schedule :: DeadlocksAfter(jobs, schedule)
  }

  ghost predicate DeadlocksAfter(jobs: seq<Job>, schedule: seq<nat>) {
    var end := Execute(Init(jobs), schedule);
    end.Some? && Deadlocked(end.value)
  }

  // ---- the discipline one thread follows ------------------------------------------------------

  function Rank(l: Lock): nat {
    match l
    case PeerMu(_) => 0
    case TrackMu(_) => 1
    case MoveMu => 2
    case SinkMu(_) => 3
    case PipelineMu(_) => 4
    case ListenersMu(_) => 4
  }

  /** Locks are taken in rank order; a second sink mutex may be taken under the global one only. */
  predicate MayAcquire(held: set<Lock>, l: Lock) {
    && l !in held
    && forall h :: h in held ==> Rank(h) < Rank(l) || (h.SinkMu? && l.SinkMu? && MoveMu in held)
  }

  /** The locks held after running `code` from `held`; None when some step breaks the discipline. */
  function After(held: set<Lock>, code: seq<Instr>): Option<set<Lock>>
    decreases |code|
  {
    if code == [] then Some(held)
    else match code[0]
      case Acquire(l) => if MayAcquire(held, l) then After(held + {l}, code[1..]) else None
      case Release(l) => if l in held then After(held - {l}, code[1..]) else None
  }

  lemma {:induction false} AfterConcat(held: set<Lock>, a: seq<Instr>, b: seq<Instr>)
    ensures After(held, a + b)
         == (var mid := After(held, a); if mid.None? then None else After(mid.value, b))
    decreases |a|
  {
    if a == [] {
      assert a + b == b;
    } else {
      assert (a + b)[1..] == a[1..] + b;
      match a[0]
      case Acquire(l) => AfterConcat(held + {l}, a[1..], b);
      case Release(l) => AfterConcat(held - {l}, a[1..], b);
    }
  }

  /** `code` follows the discipline from `held` and gives back exactly what it takes. */
  predicate Balanced(held: set<Lock>, code: seq<Instr>) {
    After(held, code) == Some(held)
  }

  lemma BalancedConcat(held: set<Lock>, a: seq<Instr>, b: seq<Instr>)
    requires Balanced(held, a) && Balanced(held, b)
    ensures Balanced(held, a + b)
  {
    AfterConcat(held, a, b);
  }

  lemma BalancedGuarded(held: set<Lock>, l: Lock, body: seq<Instr>)
    requires MayAcquire(held, l) && Balanced(held + {l}, body)
    ensures Balanced(held, Guarded(l, body))
  {
    var tail := body + [Release(l)];
    assert Guarded(l, body) == [Acquire(l)] + tail;
    AfterConcat(held + {l}, body, [Release(l)]);
    assert held + {l} - {l} == held;
    assert After(held + {l}, [Release(l)]) == After(held, []);
    assert ([Acquire(l)] + tail)[1..] == tail;
  }

  lemma BriefBalanced(held: set<Lock>, l: Lock)
    requires MayAcquire(held, l)
    ensures Balanced(held, Brief(l))
  {
    BalancedGuarded(held, l, []);
  }

  predicate Below(held: set<Lock>, rank: nat) {
    forall h :: h in held ==> Rank(h) < rank
  }

  lemma LeavesBalanced(held: set<Lock>, s: nat, needed: bool)
    requires Below(held, 4)
    ensures Balanced(held, TouchListeners(s))
    ensures Balanced(held, MaybePipeline(s, needed))
  {
    BriefBalanced(held, ListenersMu(s));
    BriefBalanced(held, PipelineMu(s));
    BalancedConcat(held, Brief(ListenersMu(s)), Brief(ListenersMu(s)));
  }

  lemma MoveBalanced(held: set<Lock>, c: SinkCall)
    requires Below(held, 2) && c.MoveListenerTo? && c.source != c.target
    ensures Balanced(held, SinkCode(c))
  {
    var s, t := SinkMu(c.source), SinkMu(c.target);
    var both := held + {s, t};
    var entry := [Acquire(MoveMu), Acquire(s), Acquire(t), Release(MoveMu)];
    var exit := [Release(t), Release(s)];
    var work := if c.fails then []
                else TouchListeners(c.source) + TouchListeners(c.target) + MaybePipeline(c.source, c.last);
    var body := MaybePipeline(c.target, c.first) + work;
    LeavesBalanced(both, c.source, c.last);
    LeavesBalanced(both, c.target, c.first);
    BalancedConcat(both, TouchListeners(c.source), TouchListeners(c.target));
    BalancedConcat(both, TouchListeners(c.source) + TouchListeners(c.target), MaybePipeline(c.source, c.last));
    BalancedConcat(both, MaybePipeline(c.target, c.first), work);
    assert After(held, entry) == Some(both) by { MoveEntry(held, s, t); }
    assert After(both, exit) == Some(held) by {
      assert exit[1..] == [Release(s)] && [Release(s)][1..] == [];
      assert After(both, exit) == After(both - {t}, [Release(s)]) == After(both - {t} - {s}, []);
      assert both - {t} - {s} == held;
    }
    AfterConcat(held, entry, body);
    AfterConcat(held, entry + body, exit);
    assert SinkCode(c) == entry + body + exit;
  }

  /** The global mutex is what lets the second sink mutex be taken. */
  lemma MoveEntry(held: set<Lock>, s: Lock, t: Lock)
    requires Below(held, 2) && s.SinkMu? && t.SinkMu?
    ensures After(held, [Acquire(MoveMu), Acquire(s), Acquire(t), Release(MoveMu)])
         == if s == t then None else Some(held + {s, t})
  {
    var code := [Acquire(MoveMu), Acquire(s), Acquire(t), Release(MoveMu)];
    var h1, h2, h3 := held + {MoveMu}, held + {MoveMu} + {s}, held + {MoveMu} + {s} + {t};
    assert code[1..] == [Acquire(s), Acquire(t), Release(MoveMu)];
    assert code[1..][1..] == [Acquire(t), Release(MoveMu)];
    assert code[1..][1..][1..] == [Release(MoveMu)];
    assert After(held, code) == After(h1, code[1..]);
    assert After(h1, code[1..]) == After(h2, code[1..][1..]);
    if s != t {
      assert After(h2, code[1..][1..]) == After(h3, [Release(MoveMu)]);
      assert h3 - {MoveMu} == held + {s, t};
      assert [Release(MoveMu)][1..] == [];
      assert After(h3, [Release(MoveMu)]) == After(h3 - {MoveMu}, []);
    }
  }

  lemma SinkCallBalanced(held: set<Lock>, c: SinkCall)
    requires Below(held, 2) && SinkCallDistinct(c)
    ensures Balanced(held, SinkCode(c))
  {
    match c
    case AddListener(s, first, fails) =>
      var h := held + {SinkMu(s)};
      LeavesBalanced(h, s, first);
      BalancedConcat(h, MaybePipeline(s, first), if fails then [] else TouchListeners(s));
      BalancedGuarded(held, SinkMu(s), MaybePipeline(s, first) + (if fails then [] else TouchListeners(s)));
    case RemoveListener(s, last) =>
      var h := held + {SinkMu(s)};
      LeavesBalanced(h, s, last);
      BalancedConcat(h, TouchListeners(s), MaybePipeline(s, last));
      BalancedGuarded(held, SinkMu(s), TouchListeners(s) + MaybePipeline(s, last));
    case MoveListenerTo(_, _, _, _, _) => MoveBalanced(held, c);
    case CreatePipeline(s) => BriefBalanced(held, PipelineMu(s));
    case DestroyPipeline(s) => BriefBalanced(held, PipelineMu(s));
    case ListenersCount(s) => BriefBalanced(held, ListenersMu(s));
    case OnSample(s) => BriefBalanced(held, ListenersMu(s));
  }

  lemma PartBalanced(held: set<Lock>, p: Part)
    requires Below(held, 1) && PartDistinct(p)
    ensures Balanced(held, PartCode(p))
  {
    match p
    case OnSink(c) => SinkCallBalanced(held, c);
    case OnTrack(t, inner) =>
      if inner.Some? {
        SinkCallBalanced(held + {TrackMu(t)}, inner.value);
      }
      BalancedGuarded(held, TrackMu(t), if inner.None? then [] else SinkCode(inner.value));
  }

  lemma {:induction false} PartsBalanced(held: set<Lock>, ps: seq<Part>)
    requires Below(held, 1) && PartsDistinct(ps)
    ensures Balanced(held, PartsCode(ps))
  {
    if ps != [] {
      PartBalanced(held, ps[0]);
      PartsBalanced(held, ps[1..]);
      BalancedConcat(held, PartCode(ps[0]), PartsCode(ps[1..]));
    }
  }

  lemma CallBalanced(c: Call)
    requires CallDistinct(c)
    ensures Balanced({}, CallCode(c))
  {
    match c
    case Plain(p) => PartBalanced({}, p);
    case OnPeer(p, parts) =>
      PartsBalanced({} + {PeerMu(p)}, parts);
      BalancedGuarded({}, PeerMu(p), PartsCode(parts));
  }

  lemma {:induction false} JobBalanced(job: Job)
    requires JobDistinct(job)
    ensures Balanced({}, JobCode(job))
  {
    if job != [] {
      CallBalanced(job[0]);
      JobBalanced(job[1..]);
      BalancedConcat({}, CallCode(job[0]), JobCode(job[1..]));
    }
  }

  // ---- deadlock freedom -----------------------------------------------------------------------

  ghost function Held(s: State, i: nat): set<Lock> {
    set l | l in s.owner && s.owner[l] == i
  }

  /** Every thread holds what its remaining code gives back, in order. */
  ghost predicate Disciplined(s: State) {
    && (forall l :: l in s.owner ==> s.owner[l] < |s.todo|)
    && (forall i: nat :: i < |s.todo| ==> After(Held(s, i), s.todo[i]) == Some({}))
  }

  lemma InitDisciplined(jobs: seq<Job>)
    requires forall j :: j in jobs ==> JobDistinct(j)
    ensures Disciplined(Init(jobs))
  {
    var s := Init(jobs);
    forall i: nat | i < |s.todo| ensures After(Held(s, i), s.todo[i]) == Some({}) {
      assert jobs[i] in jobs;
      JobBalanced(jobs[i]);
      assert Held(s, i) == {};
    }
  }

  lemma NextDisciplined(s: State, i: nat)
    requires Disciplined(s) && Enabled(s, i)
    ensures Disciplined(Next(s, i))
  {
    var s' := Next(s, i);
    var l := s.todo[i][0].lock;
    forall j: nat | j < |s'.todo| ensures After(Held(s', j), s'.todo[j]) == Some({}) {
      if j != i {
        assert Held(s', j) == Held(s, j);
      } else if s.todo[i][0].Acquire? {
        assert Held(s', i) == Held(s, i) + {l};
      } else {
        assert Held(s', i) == Held(s, i) - {l};
      }
    }
  }

  lemma {:induction false} ExecuteDisciplined(s: State, schedule: seq<nat>)
    requires Disciplined(s) && Execute(s, schedule).Some?
    ensures Disciplined(Execute(s, schedule).value)
    decreases |schedule|
  {
    if schedule != [] {
      NextDisciplined(s, schedule[0]);
      ExecuteDisciplined(Next(s, schedule[0]), schedule[1..]);
    }
  }

  /** How far along the waiting order a blocked thread stands: only a thread that holds the global
      mutex can hold one sink mutex and wait for another. */
  ghost function WaitLevel(s: State, i: nat): nat
    requires Unfinished(s, i)
  {
    var l := s.todo[i][0].lock;
    2 * Rank(l) + (if l.SinkMu? && MoveMu in Held(s, i) then 1 else 0)
  }

  /** Following "waits for a lock held by" from any unfinished thread ends at one that can step. */
  lemma {:induction false} SomeThreadSteps(s: State, i: nat) returns (j: nat)
    requires Disciplined(s) && Unfinished(s, i)
    ensures Enabled(s, j)
    decreases 10 - WaitLevel(s, i)
  {
    var l := s.todo[i][0].lock;
    if Enabled(s, i) {
      j := i;
    } else {
      assert s.todo[i][0].Acquire? && l in s.owner;
      var k := s.owner[l];
      assert l in Held(s, k);
      assert Unfinished(s, k);
      if Enabled(s, k) {
        j := k;
      } else {
        var m := s.todo[k][0].lock;
        assert s.todo[k][0].Acquire? && MayAcquire(Held(s, k), m);
        assert MayAcquire(Held(s, i), l);
        if Rank(m) <= Rank(l) {
          assert l.SinkMu? && m.SinkMu? && MoveMu in Held(s, k);
          assert MoveMu !in Held(s, i);
        }
        j := SomeThreadSteps(s, k);
      }
    }
  }

  lemma DeadlockFree(jobs: seq<Job>, schedule: seq<nat>)
    requires forall j :: j in jobs ==> JobDistinct(j)
    requires Execute(Init(jobs), schedule).Some?
    ensures !Deadlocked(Execute(Init(jobs), schedule).value)
  {
    var s := Execute(Init(jobs), schedule).value;
    InitDisciplined(jobs);
    ExecuteDisciplined(Init(jobs), schedule);
    if i :| Unfinished(s, i) {
      var j := SomeThreadSteps(s, i);
      assert Enabled(s, j);
    }
  }

  // ---- a move to the same sink deadlocks ------------------------------------------------------

  /** The locks held after one thread runs `code` with nobody else around; None when it comes to
      wait for a mutex it holds itself. */
  function Alone(held: set<Lock>, code: seq<Instr>): Option<set<Lock>>
    decreases |code|
  {
    if code == [] then Some(held)
    else match code[0]
      case Acquire(l) => if l in held then None else Alone(held + {l}, code[1..])
      case Release(l) => if l in held then Alone(held - {l}, code[1..]) else Some(held)
  }

  lemma {:induction false} AloneConcat(held: set<Lock>, a: seq<Instr>, b: seq<Instr>)
    ensures Alone(held, a).None? ==> Alone(held, a + b).None?
    ensures After(held, a).Some? ==> Alone(held, a + b) == Alone(After(held, a).value, b)
    decreases |a|
  {
    if a == [] {
      assert a + b == b;
    } else {
      assert (a + b)[1..] == a[1..] + b;
      match a[0]
      case Acquire(l) => AloneConcat(held + {l}, a[1..], b);
      case Release(l) => AloneConcat(held - {l}, a[1..], b);
    }
  }

  lemma SelfMoveAlone(held: set<Lock>, c: SinkCall)
    requires Below(held, 2) && !SinkCallDistinct(c)
    ensures Alone(held, SinkCode(c)).None?
  {
    var s := SinkMu(c.source);
    var entry := [Acquire(MoveMu), Acquire(s), Acquire(s), Release(MoveMu)];
    var rest := SinkCode(c)[4..];
    assert entry[1..][0] == Acquire(s) && entry[1..][1..][0] == Acquire(s);
    assert Alone(held, entry) == Alone(held + {MoveMu}, entry[1..])
        == Alone(held + {MoveMu} + {s}, entry[1..][1..]) == None;
    AloneConcat(held, entry, rest);
    assert SinkCode(c) == entry + rest;
  }

  lemma GuardedAlone(held: set<Lock>, l: Lock, body: seq<Instr>)
    requires l !in held && Alone(held + {l}, body).None?
    ensures Alone(held, Guarded(l, body)).None?
  {
    AloneConcat(held + {l}, body, [Release(l)]);
    assert Guarded(l, body)[1..] == body + [Release(l)];
  }

  lemma PartAlone(held: set<Lock>, p: Part)
    requires Below(held, 1) && !PartDistinct(p)
    ensures Alone(held, PartCode(p)).None?
  {
    match p
    case OnSink(c) => SelfMoveAlone(held, c);
    case OnTrack(t, inner) =>
      SelfMoveAlone(held + {TrackMu(t)}, inner.value);
      GuardedAlone(held, TrackMu(t), SinkCode(inner.value));
  }

  lemma {:induction false} PartsAlone(held: set<Lock>, ps: seq<Part>)
    requires Below(held, 1) && !PartsDistinct(ps)
    ensures Alone(held, PartsCode(ps)).None?
  {
    if !PartDistinct(ps[0]) {
      PartAlone(held, ps[0]);
    } else {
      PartBalanced(held, ps[0]);
      PartsAlone(held, ps[1..]);
    }
    AloneConcat(held, PartCode(ps[0]), PartsCode(ps[1..]));
  }

  lemma CallAlone(c: Call)
    requires !CallDistinct(c)
    ensures Alone({}, CallCode(c)).None?
  {
    match c
    case Plain(p) => PartAlone({}, p);
    case OnPeer(p, parts) =>
      PartsAlone({} + {PeerMu(p)}, parts);
      GuardedAlone({}, PeerMu(p), PartsCode(parts));
  }

  lemma {:induction false} JobAlone(job: Job)
    requires !JobDistinct(job)
    ensures Alone({}, JobCode(job)).None?
  {
    if !CallDistinct(job[0]) {
      CallAlone(job[0]);
    } else {
      CallBalanced(job[0]);
      JobAlone(job[1..]);
    }
    AloneConcat({}, CallCode(job[0]), JobCode(job[1..]));
  }

  lemma {:induction false} ExecuteConcat(s: State, a: seq<nat>, b: seq<nat>)
    requires Execute(s, a).Some?
    ensures Execute(s, a + b) == Execute(Execute(s, a).value, b)
    decreases |a|
  {
    if a == [] {
      assert a + b == b;
    } else {
      assert (a + b)[1..] == a[1..] + b;
      ExecuteConcat(Next(s, a[0]), a[1..], b);
    }
  }

  /** Thread i waits for a mutex that it holds itself. */
  predicate SelfBlocked(s: State, i: nat) {
    && Unfinished(s, i)
    && s.todo[i][0].Acquire?
    && s.todo[i][0].lock in s.owner
    && s.owner[s.todo[i][0].lock] == i
  }

  lemma {:induction false} RunAlone(s: State, i: nat) returns (schedule: seq<nat>)
    requires i < |s.todo|
    requires forall l :: l in s.owner ==> s.owner[l] == i
    requires Alone(Held(s, i), s.todo[i]).None?
    ensures Execute(s, schedule).Some? && SelfBlocked(Execute(s, schedule).value, i)
    decreases |s.todo[i]|
  {
    if SelfBlocked(s, i) {
      schedule := [];
    } else {
      var s' := Next(s, i);
      var l := s.todo[i][0].lock;
      assert Held(s', i) == if s.todo[i][0].Acquire? then Held(s, i) + {l} else Held(s, i) - {l};
      schedule := RunAlone(s', i);
      schedule := [i] + schedule;
    }
  }

  ghost function Remaining(todo: seq<seq<Instr>>): nat {
    if todo == [] then 0 else |todo[0]| + Remaining(todo[1..])
  }

  lemma {:induction false} RemainingDrops(todo: seq<seq<Instr>>, i: nat)
    requires i < |todo| && todo[i] != []
    ensures Remaining(todo[i := todo[i][1..]]) == Remaining(todo) - 1
  {
    var after := todo[i := todo[i][1..]];
    if i > 0 {
      assert after[1..] == todo[1..][i - 1 := todo[1..][i - 1][1..]];
      RemainingDrops(todo[1..], i - 1);
    }
  }

  /** Whatever the others do, they run out of steps, and a self-blocked thread stays so. */
  lemma {:induction false} RunOut(s: State, i: nat) returns (schedule: seq<nat>)
    requires SelfBlocked(s, i)
    ensures Execute(s, schedule).Some? && Deadlocked(Execute(s, schedule).value)
    decreases Remaining(s.todo)
  {
    if j: nat :| Enabled(s, j) {
      RemainingDrops(s.todo, j);
      schedule := RunOut(Next(s, j), i);
      schedule := [j] + schedule;
    } else {
      schedule := [];
    }
  }

  lemma SelfMoveDeadlocks(jobs: seq<Job>, i: nat)
    requires i < |jobs| && !JobDistinct(jobs[i])
    ensures DeadlockReachable(jobs)
  {
    var s := Init(jobs);
    JobAlone(jobs[i]);
    assert Held(s, i) == {};
    var first := RunAlone(s, i);
    var second := RunOut(Execute(s, first).value, i);
    ExecuteConcat(s, first, second);
    assert DeadlocksAfter(jobs, first + second);
  }

  /** A set of threads can deadlock exactly when one of them moves a listener from a sink to itself. */
  lemma DeadlockIffSelfMove(jobs: seq<Job>)
    ensures DeadlockReachable(jobs) <==> exists j :: j in jobs && !JobDistinct(j)
  {
    if j :| j in jobs && !JobDistinct(j) {
      var i :| 0 <= i < |jobs| && jobs[i] == j;
      SelfMoveDeadlocks(jobs, i);
    } else if schedule :| DeadlocksAfter(jobs, schedule) {
      DeadlockFree(jobs, schedule);
    }
  }
}
