/** The touch driver told by its history: which touches are open, and every message that the other end
    decodes, from the calls alone. */
module TouchHistory {
  import opened Options
  import opened TouchSpec

  /** When the touch was last begun or updated, if it is open after the calls. */
  function TouchedAfter(calls: seq<Call>, id: bv32): Option<Time> {
    if calls == [] then None
    else
      var before := TouchedAfter(calls[..|calls| - 1], id);
      match calls[|calls| - 1]
      case Begin(i, _, _, _, now) => if i == id && before.None? then Some(now) else before
      case Update(i, _, _, _, now) => if i == id && before.Some? then Some(now) else before
      case End(i, _, _, _) => if i == id then None else before
      case Debounce(now, duration, _) => if before.Some? && now - before.value >= duration then None else before
  }

  /** A touch that is not updated for long ends at no position. */
  function TimeOuts(order: seq<bv32>): seq<Message> {
    if order == [] then []
    else TimeOuts(order[..|order| - 1]) + [Message(20, order[|order| - 1] & 0xFFFF, 0xFFFF_FFFF, 0xFFFF_FFFF, 0)]
  }

  /** What the other end decodes of a call after the calls before it. */
  function Tells(calls: seq<Call>, c: Call): seq<Message> {
    match c
    case Begin(id, x, y, p, _) => if TouchedAfter(calls, id).None? then [Message(18, id & 0xFFFF, x, y, p)] else []
    case Update(id, x, y, p, _) => if TouchedAfter(calls, id).Some? then [Message(19, id & 0xFFFF, x, y, p)] else []
    case End(id, x, y, p) => if TouchedAfter(calls, id).Some? then [Message(20, id & 0xFFFF, x, y, p)] else []
    case Debounce(_, _, order) => TimeOuts(order)
  }

  function Told(calls: seq<Call>): seq<Message> {
    if calls == [] then []
    else Told(calls[..|calls| - 1]) + Tells(calls[..|calls| - 1], calls[|calls| - 1])
  }

  /** What the other end makes of the buffers. */
  function Decoded(wire: seq<seq<bv8>>): seq<Message>
    requires forall b :: b in wire ==> |b| == 12
  {
    seq(|wire|, i requires 0 <= i < |wire| => Unpack(wire[i]))
  }

  /** The state agrees with the history about one touch. */
  ghost predicate TouchIs(d: Driver, id: bv32, touched: Option<Time>) {
    (id in d.open <==> touched.Some?) && (id in d.open ==> At(d.open, id) == touched.value)
  }

  ghost predicate Is(d: Driver, calls: seq<Call>) {
    forall id :: TouchIs(d, id, TouchedAfter(calls, id))
  }

  ghost predicate Follows(d: Driver, calls: seq<Call>) {
    Is(d, calls) && Framed(d) && Decoded(d.wire) == Told(calls)
  }

  lemma DecodesOneMore(wire: seq<seq<bv8>>, m: Message)
    requires forall b :: b in wire ==> |b| == 12
    ensures forall b :: b in wire + [Pack(m)] ==> |b| == 12
    ensures Decoded(wire + [Pack(m)])
            == Decoded(wire) + [Message(m.kind & 0xFF, m.touchId & 0xFFFF, m.x, m.y, m.pressure)]
  {
    hide Unpack;
    UnpackPack(m);
  }

  lemma KindsFit()
    ensures TOUCH_BEGIN & 0xFF == 18 && TOUCH_UPDATE & 0xFF == 19 && TOUCH_END & 0xFF == 20
  {
  }

  lemma EndTells(d: Driver, id: bv32, x: bv32, y: bv32, p: bv8)
    requires Framed(d)
    ensures Framed(Ended(d, id, x, y, p)) && Ended(d, id, x, y, p).open == d.open - {id}
    ensures Decoded(Ended(d, id, x, y, p).wire) == Decoded(d.wire) + [Message(20, id & 0xFFFF, x, y, p)]
  {
    hide Pack, Unpack, Decoded;
    KindsFit();
    DecodesOneMore(d.wire, Message(TOUCH_END, id, x, y, p));
  }

  lemma {:induction false} EndAllTells(d: Driver, order: seq<bv32>)
    requires Framed(d)
    ensures Framed(EndAll(d, order))
    ensures Decoded(EndAll(d, order).wire) == Decoded(d.wire) + TimeOuts(order)
    ensures EndAll(d, order).open == d.open - (set id | id in order)
  {
    hide Decoded, Ended, Framed;
    if order != [] {
      var front, last := order[..|order| - 1], order[|order| - 1];
      EndAllTells(d, front);
      EndTells(EndAll(d, front), last, MINUS_ONE, MINUS_ONE, 0);
      assert order == front + [last];
    }
  }

  lemma OneMore(calls: seq<Call>, c: Call)
    ensures (calls + [c])[..|calls|] == calls && (calls + [c])[|calls|] == c
  {
  }

  lemma TouchedOneMore(calls: seq<Call>, c: Call, id: bv32)
    ensures var before := TouchedAfter(calls, id);
            TouchedAfter(calls + [c], id) == match c
              case Begin(i, _, _, _, now) => if i == id && before.None? then Some(now) else before
              case Update(i, _, _, _, now) => if i == id && before.Some? then Some(now) else before
              case End(i, _, _, _) => if i == id then None else before
              case Debounce(now, duration, _) =>
                if before.Some? && now - before.value >= duration then None else before
  {
    OneMore(calls, c);
  }

  lemma TouchStep(d: Driver, calls: seq<Call>, c: Call, id: bv32)
    requires TouchIs(d, id, TouchedAfter(calls, id)) && !c.Debounce?
    ensures TouchIs(Apply(d, c), id, TouchedAfter(calls + [c], id))
  {
    hide Pack, TouchedAfter;
    TouchedOneMore(calls, c, id);
  }

  lemma BeginTells(d: Driver, c: Call)
    requires Framed(d) && c.Begin?
    ensures var d' := Apply(d, c);
            Framed(d') && Decoded(d'.wire)
            == Decoded(d.wire) + if c.id !in d.open then [Message(18, c.id & 0xFFFF, c.x, c.y, c.pressure)] else []
  {
    hide Pack, Unpack, Decoded;
    KindsFit();
    DecodesOneMore(d.wire, Message(TOUCH_BEGIN, c.id, c.x, c.y, c.pressure));
  }

  lemma UpdateTells(d: Driver, c: Call)
    requires Framed(d) && c.Update?
    ensures var d' := Apply(d, c);
            Framed(d') && Decoded(d'.wire)
            == Decoded(d.wire) + if c.id in d.open then [Message(19, c.id & 0xFFFF, c.x, c.y, c.pressure)] else []
  {
    hide Pack, Unpack, Decoded;
    KindsFit();
    DecodesOneMore(d.wire, Message(TOUCH_UPDATE, c.id, c.x, c.y, c.pressure));
  }

  lemma TouchTells(d: Driver, calls: seq<Call>, c: Call)
    requires Framed(d) && !c.Debounce? && TouchIs(d, c.id, TouchedAfter(calls, c.id))
    ensures Framed(Apply(d, c)) && Decoded(Apply(d, c).wire) == Decoded(d.wire) + Tells(calls, c)
  {
    hide Framed, Decoded, TouchBegin, TouchUpdate, Ended, TouchedAfter;
    match c
    case Begin(_, _, _, _, _) => BeginTells(d, c);
    case Update(_, _, _, _, _) => UpdateTells(d, c);
    case End(id, x, y, p) => EndTells(d, id, x, y, p);
  }

  lemma CallFollows(d: Driver, calls: seq<Call>, c: Call)
    requires Follows(d, calls) && !c.Debounce?
    ensures Follows(Apply(d, c), calls + [c])
  {
    hide Framed, Decoded, Apply, TouchIs, Tells, TouchedAfter;
    OneMore(calls, c);
    forall id ensures TouchIs(Apply(d, c), id, TouchedAfter(calls + [c], id)) {
      TouchStep(d, calls, c, id);
    }
    TouchTells(d, calls, c);
  }

  lemma TimedOutIff(d: Driver, calls: seq<Call>, c: Call, id: bv32)
    requires TouchIs(d, id, TouchedAfter(calls, id)) && Allowed(d, c) && c.Debounce?
    ensures TouchIs(d.(open := d.open - (set i | i in c.order)), id, TouchedAfter(calls + [c], id))
  {
    hide TouchedAfter;
    TouchedOneMore(calls, c, id);
    assert id in c.order <==> id in Expired(d, c.now, c.duration);
  }

  lemma DebounceFollows(d: Driver, calls: seq<Call>, c: Call)
    requires Follows(d, calls) && Allowed(d, c) && c.Debounce?
    ensures Follows(Apply(d, c), calls + [c])
  {
    hide Decoded, EndAll, TimeOuts, Framed, TouchedAfter;
    OneMore(calls, c);
    EndAllTells(d, c.order);
    forall id ensures TouchIs(Apply(d, c), id, TouchedAfter(calls + [c], id)) {
      TimedOutIff(d, calls, c, id);
    }
  }

  /** After any run exactly those touches are open of which the history says so, and the other end has decoded
      exactly the messages that it tells: of each accepted call its position and pressure. */
  lemma {:induction false} TouchesFollowHistory(states: seq<Driver>, calls: seq<Call>, n: nat)
    requires IsRun(states, calls) && n < |states|
    ensures Framed(states[n]) && Decoded(states[n].wire) == Told(calls[..n])
    ensures forall id :: id in states[n].open <==> TouchedAfter(calls[..n], id).Some?
    ensures forall id :: id in states[n].open ==> At(states[n].open, id) == TouchedAfter(calls[..n], id).value
  {
    hide Framed, Decoded;
    RunFollows(states, calls, n);
    assert forall id :: TouchIs(states[n], id, TouchedAfter(calls[..n], id));
  }

  lemma NothingYet()
    ensures Follows(IDLE, [])
  {
  }

  lemma {:induction false} RunFollows(states: seq<Driver>, calls: seq<Call>, n: nat)
    requires IsRun(states, calls) && n < |states|
    ensures Follows(states[n], calls[..n])
  {
    hide Follows, Apply, Allowed;
    if n == 0 {
      NothingYet();
      assert calls[..0] == [];
    } else {
      RunFollows(states, calls, n - 1);
      var d, c := states[n - 1], calls[n - 1];
      assert Allowed(d, c) && states[n - 1 + 1] == Apply(d, c);
      assert calls[..n] == calls[..n - 1] + [c];
      if c.Debounce? { DebounceFollows(d, calls[..n - 1], c); } else { CallFollows(d, calls[..n - 1], c); }
    }
  }

  /** A call about a touch is refused exactly if it begins one that is open, or is about one that is not. */
  lemma AnswersFollowHistory(states: seq<Driver>, calls: seq<Call>, n: nat, id: bv32, x: bv32, y: bv32, p: bv8,
                             now: Time)
    requires IsRun(states, calls) && n < |states|
    ensures TouchBegin(states[n], id, x, y, p, now).1 <==> TouchedAfter(calls[..n], id).None?
    ensures TouchUpdate(states[n], id, x, y, p, now).1 <==> TouchedAfter(calls[..n], id).Some?
    ensures TouchEnd(states[n], id, x, y, p).1 <==> TouchedAfter(calls[..n], id).Some?
  {
    hide Pack;
    TouchesFollowHistory(states, calls, n);
  }

  /** Where each byte of a message stands: the type first, then id, coordinates and pressure, each with its low
      byte first. */
  lemma Layout()
    ensures Pack(Message(0x0112, 0x0302, 0x07060504, 0x0B0A0908, 0x0C))
            == [0x12, 0x02, 0x03, 0x04, 0x05, 0x06, 0x07, 0x08, 0x09, 0x0A, 0x0B, 0x0C]
  {
  }
}
