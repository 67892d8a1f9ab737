/** Touch messages on the wire, and the driver that sends them, as functions of values. */
module TouchSpec {
  import opened Options

  type Time = int

  // ---- the messages ---------------------------------------------------------------------------

  /** Coordinates are signed; here they are given by their bits. */
  datatype Message = Message(kind: bv16, touchId: bv32, x: bv32, y: bv32, pressure: bv8)

  const TOUCH_BEGIN: bv16 := 18
  const TOUCH_UPDATE: bv16 := 19
  const TOUCH_END: bv16 := 20

  function ByteOf(v: bv32, shift: nat): bv8
    requires shift < 32
  {
    ((v >> shift) & 0xFF) as bv8
  }

  function FromBytes(a: bv8, b: bv8, c: bv8, d: bv8): bv32 {
    (a as bv32) | ((b as bv32) << 8) | ((c as bv32) << 16) | ((d as bv32) << 24)
  }

  function Pack(m: Message): seq<bv8> {
    [(m.kind & 0xFF) as bv8,
     ByteOf(m.touchId, 0), ByteOf(m.touchId, 8),
     ByteOf(m.x, 0), ByteOf(m.x, 8), ByteOf(m.x, 16), ByteOf(m.x, 24),
     ByteOf(m.y, 0), ByteOf(m.y, 8), ByteOf(m.y, 16), ByteOf(m.y, 24),
     m.pressure]
  }

  function Unpack(b: seq<bv8>): Message
    requires |b| == 12
  {
    Message(b[0] as bv16,
            (b[1] as bv32) | ((b[2] as bv32) << 8),
            FromBytes(b[3], b[4], b[5], b[6]),
            FromBytes(b[7], b[8], b[9], b[10]),
            b[11])
  }

  lemma ByteIs(v: bv32)
    ensures ByteOf(v, 0) as bv32 == v & 0xFF && ByteOf(v, 8) as bv32 == (v >> 8) & 0xFF
    ensures ByteOf(v, 16) as bv32 == (v >> 16) & 0xFF && ByteOf(v, 24) as bv32 == (v >> 24) & 0xFF
  {
  }

  lemma WordRoundTrip(v: bv32)
    ensures FromBytes(ByteOf(v, 0), ByteOf(v, 8), ByteOf(v, 16), ByteOf(v, 24)) == v
  {
    hide ByteOf;
    ByteIs(v);
  }

  lemma HalfWordRoundTrip(v: bv32)
    ensures ((ByteOf(v, 0) as bv32) | ((ByteOf(v, 8) as bv32) << 8)) == v & 0xFFFF
  {
    hide ByteOf;
    ByteIs(v);
  }

  lemma BytesRoundTrip(a: bv8, b: bv8, c: bv8, d: bv8)
    ensures var v := FromBytes(a, b, c, d);
            ByteOf(v, 0) == a && ByteOf(v, 8) == b && ByteOf(v, 16) == c && ByteOf(v, 24) == d
  {
  }

  lemma HalfRoundTrip(a: bv8, b: bv8)
    ensures var v := (a as bv32) | ((b as bv32) << 8); ByteOf(v, 0) == a && ByteOf(v, 8) == b
  {
  }

  lemma KindFitsByte(k: bv16)
    ensures ((k & 0xFF) as bv8) as bv16 == k & 0xFF
  {
  }

  /** What comes off the wire is the message with its type cut to 8 bits and its id to 16. */
  lemma UnpackPack(m: Message)
    ensures Unpack(Pack(m)) == m.(kind := m.kind & 0xFF, touchId := m.touchId & 0xFFFF)
  {
    hide ByteOf, FromBytes;
    HalfWordRoundTrip(m.touchId);
    WordRoundTrip(m.x);
    WordRoundTrip(m.y);
    KindFitsByte(m.kind);
  }

  /** So it is the message itself exactly if both fit; all coordinates do. */
  lemma UnpackPackIff(m: Message)
    ensures Unpack(Pack(m)) == m <==> m.kind < 0x100 && m.touchId < 0x1_0000
  {
    UnpackPack(m);
  }

  /** Every buffer of twelve bytes is the packed form of what it unpacks to. */
  lemma PackUnpack(b: seq<bv8>)
    requires |b| == 12
    ensures Pack(Unpack(b)) == b
  {
    hide ByteOf, FromBytes, Pack;
    FieldsPack(b[0], b[1], b[2], b[3], b[4], b[5], b[6], b[7], b[8], b[9], b[10], b[11]);
    assert b == [b[0], b[1], b[2], b[3], b[4], b[5], b[6], b[7], b[8], b[9], b[10], b[11]];
  }

  lemma FieldsPack(k: bv8, i0: bv8, i1: bv8, x0: bv8, x1: bv8, x2: bv8, x3: bv8, y0: bv8, y1: bv8, y2: bv8, y3: bv8,
                   p: bv8)
    ensures Pack(Message(k as bv16, (i0 as bv32) | ((i1 as bv32) << 8), FromBytes(x0, x1, x2, x3),
                         FromBytes(y0, y1, y2, y3), p))
            == [k, i0, i1, x0, x1, x2, x3, y0, y1, y2, y3, p]
  {
    hide ByteOf, FromBytes;
    HalfRoundTrip(i0, i1);
    BytesRoundTrip(x0, x1, x2, x3);
    BytesRoundTrip(y0, y1, y2, y3);
    KindRoundTrip(k);
  }

  lemma KindRoundTrip(a: bv8)
    ensures ((a as bv16) & 0xFF) as bv8 == a
  {
  }

  // ---- the driver -----------------------------------------------------------------------------

  /** `open` is the debounce map, `wire` what has been written to the socket. */
  datatype Driver = Driver(open: map<bv32, Time>, wire: seq<seq<bv8>>)

  const IDLE := Driver(map[], [])

  function Sent(d: Driver, m: Message): Driver {
    d.(wire := d.wire + [Pack(m)])
  }

  function TouchBegin(d: Driver, id: bv32, x: bv32, y: bv32, pressure: bv8, now: Time): (Driver, bool) {
    if id in d.open then (d, false)
    else (Sent(d.(open := d.open[id := now]), Message(TOUCH_BEGIN, id, x, y, pressure)), true)
  }

  function TouchUpdate(d: Driver, id: bv32, x: bv32, y: bv32, pressure: bv8, now: Time): (Driver, bool) {
    if id !in d.open then (d, false)
    else (Sent(d.(open := d.open[id := now]), Message(TOUCH_UPDATE, id, x, y, pressure)), true)
  }

  function Ended(d: Driver, id: bv32, x: bv32, y: bv32, pressure: bv8): Driver {
    Sent(d.(open := d.open - {id}), Message(TOUCH_END, id, x, y, pressure))
  }

  function TouchEnd(d: Driver, id: bv32, x: bv32, y: bv32, pressure: bv8): (Driver, bool) {
    if id !in d.open then (d, false) else (Ended(d, id, x, y, pressure), true)
  }

  const MINUS_ONE: bv32 := 0xFFFF_FFFF

  /** End the touches one after another, at no position. */
  function EndAll(d: Driver, order: seq<bv32>): Driver {
    if order == [] then d
    else Ended(EndAll(d, order[..|order| - 1]), order[|order| - 1], MINUS_ONE, MINUS_ONE, 0)
  }

  /** What a map holds for a key, of whatever type that is. */
  function At<K, V>(m: map<K, V>, key: K): V
    requires key in m
  {
    m[key]
  }

  function Expired(d: Driver, now: Time, duration: int): set<bv32> {
    set id | id in d.open && now - At(d.open, id) >= duration
  }

  /** The order names each of the given ids once. */
  ghost predicate Lists(order: seq<bv32>, ids: set<bv32>) {
    && (forall id :: id in order <==> id in ids)
    && (forall i, j :: 0 <= i < j < |order| ==> order[i] != order[j])
  }

  datatype Call =
    | Begin(id: bv32, x: bv32, y: bv32, pressure: bv8, now: Time)
    | Update(id: bv32, x: bv32, y: bv32, pressure: bv8, now: Time)
    | End(id: bv32, x: bv32, y: bv32, pressure: bv8)
    | Debounce(now: Time, duration: int, order: seq<bv32>)

  function Apply(d: Driver, c: Call): Driver {
    match c
    case Begin(id, x, y, p, now) => TouchBegin(d, id, x, y, p, now).0
    case Update(id, x, y, p, now) => TouchUpdate(d, id, x, y, p, now).0
    case End(id, x, y, p) => TouchEnd(d, id, x, y, p).0
    case Debounce(_, _, order) => EndAll(d, order)
  }

  ghost predicate Allowed(d: Driver, c: Call) {
    c.Debounce? ==> Lists(c.order, Expired(d, c.now, c.duration))
  }

  // ---- what the other end sees ----------------------------------------------------------------

  /** Of one touch id: between touches, in a touch, or something that is neither. */
  datatype Phase = Closed | Open | Broken

  function NextPhase(p: Phase, kind: bv16): Phase {
    if p == Closed && kind == TOUCH_BEGIN then Open
    else if p == Open && kind == TOUCH_UPDATE then Open
    else if p == Open && kind == TOUCH_END then Closed
    else Broken
  }

  /** The phase of the 16-bit id w after the messages, which for that id must form Begin, any number of
      Updates, End, and so on. */
  function PhaseOf(wire: seq<seq<bv8>>, w: bv32): Phase
    requires forall b :: b in wire ==> |b| == 12
  {
    if wire == [] then Closed
    else
      var before := PhaseOf(wire[..|wire| - 1], w);
      var m := Unpack(wire[|wire| - 1]);
      if m.touchId == w then NextPhase(before, m.kind) else before
  }

  function Low(id: bv32): bv32 {
    id & 0xFFFF
  }

  ghost predicate Framed(d: Driver) {
    forall b :: b in d.wire ==> |b| == 12
  }

  /** No two open touches look the same on the wire. */
  ghost predicate NoAlias(d: Driver) {
    forall a, b :: a in d.open && b in d.open && Low(a) == Low(b) ==> a == b
  }

  ghost predicate LooksOpen(d: Driver, w: bv32) {
    exists id :: id in d.open && Low(id) == w
  }

  /** The other end sees as open just the ids that are open here. */
  ghost predicate DriverOk(d: Driver) {
    && Framed(d) && NoAlias(d)
    && forall w :: PhaseOf(d.wire, w) == if LooksOpen(d, w) then Open else Closed
  }

  lemma PhaseAppend(wire: seq<seq<bv8>>, m: Message, w: bv32)
    requires (forall b :: b in wire ==> |b| == 12) && m.kind < 0x100
    ensures forall b :: b in wire + [Pack(m)] ==> |b| == 12
    ensures PhaseOf(wire + [Pack(m)], w)
            == if Low(m.touchId) == w then NextPhase(PhaseOf(wire, w), m.kind) else PhaseOf(wire, w)
  {
    UnpackPack(m);
    KindFits(m.kind);
    assert (wire + [Pack(m)])[..|wire|] == wire;
  }

  lemma KindFits(k: bv16)
    ensures k < 0x100 ==> k & 0xFF == k
  {
  }

  lemma SendKeeps(d: Driver, d': Driver, m: Message)
    requires DriverOk(d) && d'.wire == d.wire + [Pack(m)] && m.kind < 0x100
    requires NoAlias(d')
    requires forall w :: w != Low(m.touchId) ==> (LooksOpen(d', w) <==> LooksOpen(d, w))
    requires NextPhase(if LooksOpen(d, Low(m.touchId)) then Open else Closed, m.kind)
             == if LooksOpen(d', Low(m.touchId)) then Open else Closed
    ensures DriverOk(d')
  {
    hide Pack, Unpack, LooksOpen, NextPhase, Low, NoAlias;
    PhaseAppend(d.wire, m, 0);
    forall w ensures PhaseOf(d'.wire, w) == if LooksOpen(d', w) then Open else Closed {
      PhaseAppend(d.wire, m, w);
    }
  }

  lemma BeginKeeps(d: Driver, id: bv32, x: bv32, y: bv32, p: bv8, now: Time)
    requires DriverOk(d) && id !in d.open && !LooksOpen(d, Low(id))
    ensures DriverOk(TouchBegin(d, id, x, y, p, now).0)
  {
    hide Pack, Low;
    var d' := TouchBegin(d, id, x, y, p, now).0;
    assert id in d'.open;
    forall w | w != Low(id) ensures LooksOpen(d', w) <==> LooksOpen(d, w) {
      if a :| a in d.open && Low(a) == w { assert a in d'.open; }
    }
    SendKeeps(d, d', Message(TOUCH_BEGIN, id, x, y, p));
  }

  lemma UpdateKeeps(d: Driver, id: bv32, x: bv32, y: bv32, p: bv8, now: Time)
    requires DriverOk(d) && id in d.open
    ensures DriverOk(TouchUpdate(d, id, x, y, p, now).0)
  {
    hide Pack, Low;
    var d' := TouchUpdate(d, id, x, y, p, now).0;
    assert d'.open.Keys == d.open.Keys;
    assert forall a :: a in d'.open <==> a in d.open;
    assert LooksOpen(d, Low(id)) && LooksOpen(d', Low(id));
    forall w ensures LooksOpen(d', w) <==> LooksOpen(d, w) {
    }
    SendKeeps(d, d', Message(TOUCH_UPDATE, id, x, y, p));
  }

  lemma EndKeeps(d: Driver, id: bv32, x: bv32, y: bv32, p: bv8)
    requires DriverOk(d) && id in d.open
    ensures DriverOk(Ended(d, id, x, y, p))
  {
    hide Pack, Low;
    var d' := Ended(d, id, x, y, p);
    assert LooksOpen(d, Low(id)) && !LooksOpen(d', Low(id));
    forall w | w != Low(id) ensures LooksOpen(d', w) <==> LooksOpen(d, w) {
      if a :| a in d.open && Low(a) == w { assert a in d'.open; }
    }
    SendKeeps(d, d', Message(TOUCH_END, id, x, y, p));
  }

  lemma {:induction false} EndAllKeeps(d: Driver, order: seq<bv32>)
    requires DriverOk(d) && (forall id :: id in order ==> id in d.open)
    requires forall i, j :: 0 <= i < j < |order| ==> order[i] != order[j]
    ensures DriverOk(EndAll(d, order))
    ensures EndAll(d, order).open == d.open - (set id | id in order)
  {
    hide DriverOk;
    if order != [] {
      EndAllKeeps(d, order[..|order| - 1]);
      EndKeeps(EndAll(d, order[..|order| - 1]), order[|order| - 1], MINUS_ONE, MINUS_ONE, 0);
    }
  }

  // ---- over any run ---------------------------------------------------------------------------

  ghost predicate IsRun(states: seq<Driver>, calls: seq<Call>) {
    && |states| == |calls| + 1
    && states[0] == IDLE
    && forall i :: 0 <= i < |calls| ==> Allowed(states[i], calls[i]) && states[i + 1] == Apply(states[i], calls[i])
  }

  /** The call begins a touch that the wire cannot tell from one that is open. */
  ghost predicate Aliases(d: Driver, c: Call) {
    c.Begin? && c.id !in d.open && LooksOpen(d, Low(c.id))
  }

  lemma ApplyKeeps(d: Driver, c: Call)
    requires DriverOk(d) && Allowed(d, c) && !Aliases(d, c)
    ensures DriverOk(Apply(d, c))
  {
    hide DriverOk, LooksOpen, Low;
    match c
    case Begin(id, x, y, p, now) => if id !in d.open { BeginKeeps(d, id, x, y, p, now); }
    case Update(id, x, y, p, now) => if id in d.open { UpdateKeeps(d, id, x, y, p, now); }
    case End(id, x, y, p) => if id in d.open { EndKeeps(d, id, x, y, p); }
    case Debounce(_, _, order) => EndAllKeeps(d, order);
  }

  lemma {:induction false} TouchesAreWellFormed(states: seq<Driver>, calls: seq<Call>, n: nat)
    requires IsRun(states, calls) && n < |states|
    requires forall i :: 0 <= i < n ==> !Aliases(states[i], calls[i])
    ensures DriverOk(states[n])
  {
    if n == 0 {
      assert DriverOk(IDLE);
    } else {
      hide DriverOk, Aliases, Apply, Allowed;
      TouchesAreWellFormed(states, calls, n - 1);
      ApplyKeeps(states[n - 1], calls[n - 1]);
    }
  }

  lemma AliasBreaks(d: Driver, c: Call)
    requires DriverOk(d) && Aliases(d, c)
    ensures Framed(Apply(d, c)) && PhaseOf(Apply(d, c).wire, Low(c.id)) == Broken
  {
    hide Pack, Low, Unpack;
    PhaseAppend(d.wire, Message(TOUCH_BEGIN, c.id, c.x, c.y, c.pressure), Low(c.id));
  }

  lemma {:induction false} BrokenStays(wire: seq<seq<bv8>>, longer: seq<seq<bv8>>, w: bv32)
    requires (forall b :: b in longer ==> |b| == 12) && wire <= longer
    requires PhaseOf(wire, w) == Broken
    ensures PhaseOf(longer, w) == Broken
  {
    hide Unpack;
    if |wire| < |longer| {
      BrokenStays(wire, longer[..|longer| - 1], w);
    } else {
      assert wire == longer;
    }
  }

  lemma {:induction false} EndAllGrows(d: Driver, order: seq<bv32>)
    requires Framed(d)
    ensures d.wire <= EndAll(d, order).wire && Framed(EndAll(d, order))
  {
    hide Unpack;
    if order != [] {
      EndAllGrows(d, order[..|order| - 1]);
    }
  }

  lemma ApplyGrows(d: Driver, c: Call)
    requires Framed(d)
    ensures d.wire <= Apply(d, c).wire && Framed(Apply(d, c))
  {
    if c.Debounce? {
      EndAllGrows(d, c.order);
    }
  }

  /** Of a run up to n: what was written for each id up to then is Begin, Updates, End, and so on. */
  ghost predicate WellFormed(d: Driver) {
    Framed(d) && forall w :: PhaseOf(d.wire, w) != Broken
  }

  lemma {:induction false} BrokenForGood(states: seq<Driver>, calls: seq<Call>, m: nat, n: nat, w: bv32)
    requires IsRun(states, calls) && m <= n < |states|
    requires Framed(states[m]) && PhaseOf(states[m].wire, w) == Broken
    ensures Framed(states[n]) && PhaseOf(states[n].wire, w) == Broken
  {
    hide Apply, Allowed, PhaseOf;
    if m < n {
      BrokenForGood(states, calls, m, n - 1, w);
      ApplyGrows(states[n - 1], calls[n - 1]);
      BrokenStays(states[n - 1].wire, states[n].wire, w);
    }
  }

  ghost predicate NeverAliases(states: seq<Driver>, calls: seq<Call>, n: nat)
    requires n <= |calls| < |states|
  {
    forall i :: 0 <= i < n ==> !Aliases(states[i], calls[i])
  }

  lemma {:induction false} AliasLeavesBroken(states: seq<Driver>, calls: seq<Call>, n: nat) returns (w: bv32)
    requires IsRun(states, calls) && n < |states| && !NeverAliases(states, calls, n)
    ensures Framed(states[n]) && PhaseOf(states[n].wire, w) == Broken
  {
    hide Apply, Allowed, PhaseOf, LooksOpen, Low;
    if NeverAliases(states, calls, n - 1) {
      TouchesAreWellFormed(states, calls, n - 1);
      AliasBreaks(states[n - 1], calls[n - 1]);
      w := Low(calls[n - 1].id);
    } else {
      w := AliasLeavesBroken(states, calls, n - 1);
      BrokenForGood(states, calls, n - 1, n, w);
    }
  }

  /** The messages written so far are well formed for every id if and only if no Begin ever aliased an
      open touch. */
  lemma WellFormedIffNoAlias(states: seq<Driver>, calls: seq<Call>, n: nat)
    requires IsRun(states, calls) && n < |states|
    ensures WellFormed(states[n]) <==> NeverAliases(states, calls, n)
  {
    hide Apply, Allowed, PhaseOf, Aliases, LooksOpen;
    if NeverAliases(states, calls, n) {
      TouchesAreWellFormed(states, calls, n);
    } else {
      var w := AliasLeavesBroken(states, calls, n);
      assert PhaseOf(states[n].wire, w) == Broken;
    }
  }

  /** With ids below 2^16 nothing can alias. */
  lemma SmallIdsDoNotAlias(d: Driver, c: Call)
    requires forall id :: id in d.open ==> id < 0x1_0000
    requires c.Begin? ==> c.id < 0x1_0000
    ensures !Aliases(d, c)
  {
    if c.Begin? {
      LowOfSmall(c.id);
      forall id | id in d.open ensures Low(id) == id {
        LowOfSmall(id);
      }
    }
  }

  lemma LowOfSmall(id: bv32)
    ensures id < 0x1_0000 ==> Low(id) == id
  {
  }

  ghost predicate SmallIds(d: Driver) {
    forall id :: id in d.open ==> id < 0x1_0000
  }

  lemma ApplyKeepsSmall(d: Driver, c: Call)
    requires SmallIds(d) && (c.Begin? ==> c.id < 0x1_0000)
    ensures SmallIds(Apply(d, c))
  {
    hide Apply;
    if c.Debounce? {
      DebounceOpen(d, c);
    } else {
      OpenAfter(d, c);
    }
  }

  lemma DebounceOpen(d: Driver, c: Call)
    requires c.Debounce?
    ensures forall id :: id in Apply(d, c).open ==> id in d.open
  {
    EndAllOpen(d, c.order);
  }

  lemma {:induction false} SmallIdsStaySmall(states: seq<Driver>, calls: seq<Call>, n: nat)
    requires IsRun(states, calls) && n < |states|
    requires forall i :: 0 <= i < n && calls[i].Begin? ==> calls[i].id < 0x1_0000
    ensures SmallIds(states[n])
  {
    if n > 0 {
      hide Apply, SmallIds, Allowed;
      SmallIdsStaySmall(states, calls, n - 1);
      ApplyKeepsSmall(states[n - 1], calls[n - 1]);
    }
  }

  lemma OpenAfter(d: Driver, c: Call)
    requires !c.Debounce?
    ensures forall id :: id in Apply(d, c).open ==> id in d.open || (c.Begin? && id == c.id)
  {
  }

  lemma {:induction false} EndAllOpen(d: Driver, order: seq<bv32>)
    ensures forall id :: id in EndAll(d, order).open ==> id in d.open
  {
    if order != [] {
      EndAllOpen(d, order[..|order| - 1]);
    }
  }

  /** With ids below 2^16 everything that is ever written is well formed. */
  lemma SmallIdsAreWellFormed(states: seq<Driver>, calls: seq<Call>, n: nat)
    requires IsRun(states, calls) && n < |states|
    requires forall i :: 0 <= i < n && calls[i].Begin? ==> calls[i].id < 0x1_0000
    ensures WellFormed(states[n])
  {
    hide Apply, Allowed, PhaseOf, Aliases;
    forall i | 0 <= i < n ensures !Aliases(states[i], calls[i]) {
      SmallIdsStaySmall(states, calls, i);
      SmallIdsDoNotAlias(states[i], calls[i]);
    }
    WellFormedIffNoAlias(states, calls, n);
  }
}
