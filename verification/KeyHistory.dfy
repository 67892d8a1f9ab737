/** The keyboard told by its history: which key is held since when and under which keycode, and every event
    that the display has seen, from the calls alone. */
module KeyHistory {
  import opened Options
  import opened KeySpec

  /** Since when a key is held, and the keycode of its press. */
  datatype Hold = Hold(since: Time, keycode: nat)

  /** An existing keycode wins over a new mapping. */
  function PressCode(m: Keymap): nat {
    if m.found != 0 then m.found else m.mapped
  }

  /** The keycode of the press comes back, unless that was null: then the keymap is asked again. */
  function ReleaseCode(pressed: nat, m: Keymap): nat {
    if pressed != 0 then pressed else PressCode(m)
  }

  /** Whether and since when the key is held after the calls. */
  function HoldAfter(calls: seq<Call>, k: nat): Option<Hold> {
    if calls == [] then None
    else
      var before := HoldAfter(calls[..|calls| - 1], k);
      match calls[|calls| - 1]
      case Down(code, now, m) => if code == k && before.None? then Some(Hold(now, PressCode(m))) else before
      case Up(code, _) => if code == k then None else before
      case Reset(_, _) => None
      case Check(now, duration, _, _) =>
        if before.Some? && now - before.value.since >= duration then None else before
  }

  /** The null keysym is held, but never sent. */
  function EventOf(k: nat, keycode: nat, down: bool): seq<Event> {
    if k == 0 then [] else [Event(k, keycode, down)]
  }

  function ReleasesOf(calls: seq<Call>, order: seq<nat>, keymap: nat -> Keymap): seq<Event> {
    if order == [] then []
    else
      var k := order[|order| - 1];
      var hold := HoldAfter(calls, k);
      ReleasesOf(calls, order[..|order| - 1], keymap)
      + (if hold.Some? then EventOf(k, ReleaseCode(hold.value.keycode, keymap(k)), false) else [])
  }

  /** What a call sends after the calls before it. */
  function Sends(calls: seq<Call>, c: Call): seq<Event> {
    match c
    case Down(code, _, m) => if HoldAfter(calls, code).None? then EventOf(code, PressCode(m), true) else []
    case Up(code, m) =>
      var hold := HoldAfter(calls, code);
      if hold.Some? then EventOf(code, ReleaseCode(hold.value.keycode, m), false) else []
    case Reset(order, keymap) => ReleasesOf(calls, order, keymap)
    case Check(_, _, order, keymap) => ReleasesOf(calls, order, keymap)
  }

  function Sent(calls: seq<Call>): seq<Event> {
    if calls == [] then []
    else Sent(calls[..|calls| - 1]) + Sends(calls[..|calls| - 1], calls[|calls| - 1])
  }

  /** The state agrees with the history about one key. */
  ghost predicate KeyIs(s: Keys, k: nat, hold: Option<Hold>) {
    && (k in s.held <==> hold.Some?)
    && (k in s.held ==> s.held[k] == hold.value.since)
    && (k in s.held && k != 0 ==> EntryCode(s.entries, k) == hold.value.keycode)
  }

  ghost predicate Is(s: Keys, calls: seq<Call>) {
    forall k: nat :: KeyIs(s, k, HoldAfter(calls, k))
  }

  lemma {:induction false} OtherEntries(entries: seq<Entry>, code: nat, k: nat)
    requires k != code
    ensures EntryCode(WithoutEntry(entries, code), k) == EntryCode(entries, k)
  {
    if entries != [] && entries[0].keysym != code {
      assert ([entries[0]] + WithoutEntry(entries[1..], code))[1..] == WithoutEntry(entries[1..], code);
      OtherEntries(entries[1..], code, k);
    }
  }

  lemma PressIs(s: Keys, code: nat, now: Time, m: Keymap)
    requires code !in s.held
    ensures var s' := KeyDown(s, code, now, m).0;
      && s'.log == s.log + EventOf(code, PressCode(m), true)
      && KeyIs(s', code, Some(Hold(now, PressCode(m))))
      && forall k: nat, h :: k != code && KeyIs(s, k, h) ==> KeyIs(s', k, h)
  {
    var entry := Entry(code, PressCode(m));
    assert ([entry] + s.entries)[1..] == s.entries;
  }

  lemma ReleaseIs(s: Keys, code: nat, m: Keymap, hold: Hold)
    requires KeyIs(s, code, Some(hold))
    ensures var s' := Release(s, code, m);
      && s'.log == s.log + EventOf(code, ReleaseCode(hold.keycode, m), false)
      && KeyIs(s', code, None)
      && forall k: nat, h :: k != code && KeyIs(s, k, h) ==> KeyIs(s', k, h)
  {
    forall k: nat | k != code ensures EntryCode(WithoutEntry(s.entries, code), k) == EntryCode(s.entries, k) {
      OtherEntries(s.entries, code, k);
    }
  }

  lemma {:induction false} ReleaseAllIs(s: Keys, calls: seq<Call>, order: seq<nat>, keymap: nat -> Keymap)
    requires Is(s, calls) && forall c :: c in order ==> c in s.held
    requires forall i, j :: 0 <= i < j < |order| ==> order[i] != order[j]
    ensures var s' := ReleaseAll(s, order, keymap);
      && s'.log == s.log + ReleasesOf(calls, order, keymap)
      && forall k: nat :: KeyIs(s', k, if k in order then None else HoldAfter(calls, k))
  {
    hide HoldAfter, Release;
    if order == [] {
      assert forall k: nat :: KeyIs(s, k, HoldAfter(calls, k));
    } else {
      var before, last := order[..|order| - 1], order[|order| - 1];
      ReleaseAllIs(s, calls, before, keymap);
      assert order == before + [last] && last !in before;
      var mid := ReleaseAll(s, before, keymap);
      assert KeyIs(mid, last, HoldAfter(calls, last)) && KeyIs(s, last, HoldAfter(calls, last));
      ReleaseIs(mid, last, keymap(last), HoldAfter(calls, last).value);
      forall k: nat ensures KeyIs(ReleaseAll(s, order, keymap), k, if k in order then None else HoldAfter(calls, k)) {
        assert KeyIs(mid, k, if k in before then None else HoldAfter(calls, k));
      }
    }
  }

  /** The same keys are held, and the display has seen the same events. */
  ghost predicate Follows(s: Keys, calls: seq<Call>) {
    Is(s, calls) && s.log == Sent(calls)
  }

  lemma OneMore(calls: seq<Call>, c: Call)
    ensures (calls + [c])[..|calls|] == calls && (calls + [c])[|calls|] == c
  {
  }

  lemma DownFollows(s: Keys, calls: seq<Call>, c: Call)
    requires Follows(s, calls) && c.Down?
    ensures Follows(Apply(s, c), calls + [c])
  {
    hide KeyIs;
    OneMore(calls, c);
    KeyIsHeld(s, c.code, HoldAfter(calls, c.code));
    forall k: nat ensures KeyIs(Apply(s, c), k, HoldAfter(calls + [c], k)) {
      assert KeyIs(s, k, HoldAfter(calls, k));
      if c.code !in s.held { PressIs(s, c.code, c.now, c.m); }
    }
    if c.code !in s.held { PressIs(s, c.code, c.now, c.m); }
  }

  lemma KeyIsHeld(s: Keys, k: nat, hold: Option<Hold>)
    ensures KeyIs(s, k, hold) ==>
              (k in s.held <==> hold.Some?) && (hold.Some? ==> s.held[k] == hold.value.since)
  {
  }

  lemma UpFollows(s: Keys, calls: seq<Call>, c: Call)
    requires Follows(s, calls) && c.Up?
    ensures Follows(Apply(s, c), calls + [c])
  {
    hide KeyIs, Release;
    OneMore(calls, c);
    assert KeyIs(s, c.code, HoldAfter(calls, c.code));
    KeyIsHeld(s, c.code, HoldAfter(calls, c.code));
    if c.code in s.held { ReleaseIs(s, c.code, c.m, HoldAfter(calls, c.code).value); }
    forall k: nat ensures KeyIs(Apply(s, c), k, HoldAfter(calls + [c], k)) {
      assert KeyIs(s, k, HoldAfter(calls, k));
    }
  }

  lemma AllFollow(s: Keys, calls: seq<Call>, c: Call)
    requires Follows(s, calls) && Allowed(s, c) && (c.Reset? || c.Check?)
    ensures Follows(Apply(s, c), calls + [c])
  {
    hide KeyIs, ReleaseAll, ReleasesOf;
    OneMore(calls, c);
    ReleaseAllIs(s, calls, c.order, c.keymap);
    forall k: nat ensures KeyIs(Apply(s, c), k, HoldAfter(calls + [c], k)) {
      assert KeyIs(s, k, HoldAfter(calls, k));
      KeyIsHeld(s, k, HoldAfter(calls, k));
      assert KeyIs(Apply(s, c), k, if k in c.order then None else HoldAfter(calls, k));
    }
  }

  /** After any run exactly those keys are held of which the history says so, and the display has seen exactly
      the events that it tells: each press under an existing keycode if there is one, else under a new one, each
      release under the keycode of its press. */
  lemma {:induction false} KeysFollowHistory(states: seq<Keys>, calls: seq<Call>, n: nat)
    requires IsRun(states, calls) && n < |states|
    ensures states[n].log == Sent(calls[..n])
    ensures forall k: nat :: k in states[n].held <==> HoldAfter(calls[..n], k).Some?
    ensures forall k: nat :: k in states[n].held ==> states[n].held[k] == HoldAfter(calls[..n], k).value.since
  {
    RunFollows(states, calls, n);
    assert forall k: nat :: KeyIs(states[n], k, HoldAfter(calls[..n], k));
  }

  lemma {:induction false} RunFollows(states: seq<Keys>, calls: seq<Call>, n: nat)
    requires IsRun(states, calls) && n < |states|
    ensures Follows(states[n], calls[..n])
  {
    if n == 0 {
      assert forall k: nat :: KeyIs(NO_KEYS, k, None);
    } else {
      hide Follows, Apply, Allowed;
      RunFollows(states, calls, n - 1);
      var s, c := states[n - 1], calls[n - 1];
      assert Allowed(s, c) && states[n - 1 + 1] == Apply(s, c);
      assert calls[..n] == calls[..n - 1] + [c];
      match c
      case Down(_, _, _) => DownFollows(s, calls[..n - 1], c);
      case Up(_, _) => UpFollows(s, calls[..n - 1], c);
      case _ => AllFollow(s, calls[..n - 1], c);
    }
  }

  /** A press is refused exactly if the key is held, a release exactly if it is not. */
  lemma AnswersFollowHistory(states: seq<Keys>, calls: seq<Call>, n: nat, k: nat, now: Time, m: Keymap)
    requires IsRun(states, calls) && n < |states|
    ensures KeyDown(states[n], k, now, m).1 <==> HoldAfter(calls[..n], k).None?
    ensures KeyUp(states[n], k, m).1 <==> HoldAfter(calls[..n], k).Some?
  {
    KeysFollowHistory(states, calls, n);
  }
}
