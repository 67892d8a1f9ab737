/** The touch driver as it changes in place: messages packed into a buffer, and the map of open touches. */
module Touch {
  import Spec = TouchSpec

  class Message {
    var kind: bv16
    var touchId: bv32
    var x: bv32
    var y: bv32
    var pressure: bv8

    ghost function View(): Spec.Message
      reads this
    {
      Spec.Message(kind, touchId, x, y, pressure)
    }

    constructor (kind: bv16, touchId: bv32, x: bv32, y: bv32, pressure: bv8)
      ensures View() == Spec.Message(kind, touchId, x, y, pressure)
    {
      this.kind, this.touchId, this.x, this.y, this.pressure := kind, touchId, x, y, pressure;
    }

    method Unpack(buffer: array<bv8>)
      requires buffer.Length == 12
      modifies this
      ensures View() == Spec.Unpack(buffer[..])
    {
      kind := buffer[0] as bv16;
      touchId := (buffer[1] as bv32) | ((buffer[2] as bv32) << 8);
      x := (buffer[3] as bv32) | ((buffer[4] as bv32) << 8) | ((buffer[5] as bv32) << 16)
           | ((buffer[6] as bv32) << 24);
      y := (buffer[7] as bv32) | ((buffer[8] as bv32) << 8) | ((buffer[9] as bv32) << 16)
           | ((buffer[10] as bv32) << 24);
      pressure := buffer[11];
    }

    method Pack() returns (buffer: array<bv8>)
      ensures fresh(buffer) && buffer.Length == 12 && buffer[..] == Spec.Pack(View())
    {
      buffer := new bv8[12];
      buffer[0] := (kind & 0xFF) as bv8;
      buffer[1] := Spec.ByteOf(touchId, 0);
      buffer[2] := Spec.ByteOf(touchId, 8);
      buffer[3] := Spec.ByteOf(x, 0);
      buffer[4] := Spec.ByteOf(x, 8);
      buffer[5] := Spec.ByteOf(x, 16);
      buffer[6] := Spec.ByteOf(x, 24);
      buffer[7] := Spec.ByteOf(y, 0);
      buffer[8] := Spec.ByteOf(y, 8);
      buffer[9] := Spec.ByteOf(y, 16);
      buffer[10] := Spec.ByteOf(y, 24);
      buffer[11] := pressure;
    }
  }

  /** Send a message through a buffer and back: nothing is lost exactly if its type and id fit. */
  method Transfer(m: Message) returns (received: Message)
    ensures fresh(received)
    ensures received.View() == m.View() <==> m.kind < 0x100 && m.touchId < 0x1_0000
  {
    hide Spec.Pack, Spec.Unpack;
    var buffer := m.Pack();
    received := new Message(0, 0, 0, 0, 0);
    received.Unpack(buffer);
    Spec.UnpackPackIff(m.View());
  }

  method AnyOf<T>(s: set<T>) returns (x: T)
    requires s != {}
    ensures x in s
  {
    x :| x in s;
  }

  class Driver {
    var debounceTouchIds: map<bv32, Spec.Time>
    var wire: seq<seq<bv8>>           // what has been written to the socket

    ghost function View(): Spec.Driver
      reads this
    {
      Spec.Driver(debounceTouchIds, wire)
    }

    constructor ()
      ensures View() == Spec.IDLE
    {
      debounceTouchIds, wire := map[], [];
    }

    method Send(m: Message)
      modifies this`wire
      ensures wire == old(wire) + [Spec.Pack(m.View())]
    {
      var buffer := m.Pack();
      wire := wire + [buffer[..]];
    }

    method TouchBegin(touchId: bv32, x: bv32, y: bv32, pressure: bv8, now: Spec.Time) returns (ok: bool)
      modifies this
      ensures (View(), ok) == Spec.TouchBegin(old(View()), touchId, x, y, pressure, now)
    {
      hide Spec.Pack;
      if touchId in debounceTouchIds {
        return false;
      }
      debounceTouchIds := debounceTouchIds[touchId := now];
      var m := new Message(Spec.TOUCH_BEGIN, touchId, x, y, pressure);
      Send(m);
      ok := true;
    }

    method TouchUpdate(touchId: bv32, x: bv32, y: bv32, pressure: bv8, now: Spec.Time) returns (ok: bool)
      modifies this
      ensures (View(), ok) == Spec.TouchUpdate(old(View()), touchId, x, y, pressure, now)
    {
      hide Spec.Pack;
      if touchId !in debounceTouchIds {
        return false;
      }
      debounceTouchIds := debounceTouchIds[touchId := now];
      var m := new Message(Spec.TOUCH_UPDATE, touchId, x, y, pressure);
      Send(m);
      ok := true;
    }

    method TouchEnd(touchId: bv32, x: bv32, y: bv32, pressure: bv8) returns (ok: bool)
      modifies this
      ensures (View(), ok) == Spec.TouchEnd(old(View()), touchId, x, y, pressure)
    {
      hide Spec.Pack;
      if touchId !in debounceTouchIds {
        return false;
      }
      SendEnd(touchId, x, y, pressure);
      ok := true;
    }

    method SendEnd(touchId: bv32, x: bv32, y: bv32, pressure: bv8)
      modifies this
      ensures View() == Spec.Ended(old(View()), touchId, x, y, pressure)
    {
      hide Spec.Pack;
      debounceTouchIds := debounceTouchIds - {touchId};
      var m := new Message(Spec.TOUCH_END, touchId, x, y, pressure);
      Send(m);
    }

    /** End the touches not updated for long, in whatever order the map is visited, which `order` records. */
    method Debounce(now: Spec.Time, duration: int) returns (ghost order: seq<bv32>)
      modifies this
      ensures Spec.Lists(order, Spec.Expired(old(View()), now, duration))
      ensures View() == Spec.EndAll(old(View()), order)
    {
      hide Spec.Pack, Spec.Ended;
      ghost var s := View();
      var expired := set id | id in debounceTouchIds && now - Spec.At(debounceTouchIds, id) >= duration;
      order := [];
      var rest := expired;
      while rest != {}
        invariant rest <= expired
        invariant Spec.Lists(order, expired - rest)
        invariant View() == Spec.EndAll(s, order)
        decreases rest
      {
        var touchId := AnyOf(rest);
        rest := rest - {touchId};
        SendEnd(touchId, Spec.MINUS_ONE, Spec.MINUS_ONE, 0);
        ghost var longer := order + [touchId];
        assert longer[..|longer| - 1] == order;
        order := longer;
      }
    }
  }
}
