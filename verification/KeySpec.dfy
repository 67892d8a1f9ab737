/** Pressing and releasing keys, as functions of values: the debounce map, the list that remembers under
    which keycode a keysym was pressed, and the events sent to the display. */
module KeySpec {
  import opened Options

  type Time = int

  datatype Entry = Entry(keysym: nat, keycode: nat)

  datatype Event = Event(keysym: nat, keycode: nat, down: bool)

  /** What the keymap answers at some moment: the keycode that now yields the keysym, and the one that it
      would be newly mapped to; zero if there is none. */
  datatype Keymap = Keymap(found: nat, mapped: nat)

  datatype Keys = Keys(held: map<nat, Time>, entries: seq<Entry>, log: seq<Event>)

  const NO_KEYS := Keys(map[], [], [])

  /** The keycode of the first entry for the keysym, or zero. */
  function EntryCode(entries: seq<Entry>, keysym: nat): nat {
    if entries == [] then 0
    else if entries[0].keysym == keysym then entries[0].keycode
    else EntryCode(entries[1..], keysym)
  }

  /** The list without that entry. */
  function WithoutEntry(entries: seq<Entry>, keysym: nat): seq<Entry> {
    if entries == [] then []
    else if entries[0].keysym == keysym then entries[1..]
    else [entries[0]] + WithoutEntry(entries[1..], keysym)
  }

  function KeycodeFor(known: nat, m: Keymap): nat {
    if known != 0 then known else if m.found != 0 then m.found else m.mapped
  }

  /** The null keysym does nothing at all. */
  function XKey(s: Keys, keysym: nat, down: bool, m: Keymap): Keys {
    if keysym == 0 then s
    else if down then
      var keycode := KeycodeFor(0, m);
      s.(entries := [Entry(keysym, keycode)] + s.entries, log := s.log + [Event(keysym, keycode, true)])
    else
      var keycode := KeycodeFor(EntryCode(s.entries, keysym), m);
      s.(entries := WithoutEntry(s.entries, keysym), log := s.log + [Event(keysym, keycode, false)])
  }

  /** False if the key is held already. */
  function KeyDown(s: Keys, code: nat, now: Time, m: Keymap): (Keys, bool) {
    if code in s.held then (s, false)
    else (XKey(s.(held := s.held[code := now]), code, true, m), true)
  }

  function Release(s: Keys, code: nat, m: Keymap): Keys {
    XKey(s.(held := s.held - {code}), code, false, m)
  }

  /** False if the key is not held. */
  function KeyUp(s: Keys, code: nat, m: Keymap): (Keys, bool) {
    if code !in s.held then (s, false) else (Release(s, code, m), true)
  }

  /** Release the codes one after another; the keymap may answer differently for each. */
  function ReleaseAll(s: Keys, order: seq<nat>, keymap: nat -> Keymap): Keys {
    if order == [] then s
    else
      var last := order[|order| - 1];
      Release(ReleaseAll(s, order[..|order| - 1], keymap), last, keymap(last))
  }

  /** The order names each of the given codes once. */
  ghost predicate Lists(order: seq<nat>, codes: set<nat>) {
    && (forall c :: c in order <==> c in codes)
    && (forall i, j :: 0 <= i < j < |order| ==> order[i] != order[j])
  }

  /** Held for at least the duration. */
  function Expired(s: Keys, now: Time, duration: int): set<nat> {
    set c | c in s.held && now - s.held[c] >= duration
  }

  datatype Call =
    | Down(code: nat, now: Time, m: Keymap)
    | Up(code: nat, m: Keymap)
    | Reset(order: seq<nat>, keymap: nat -> Keymap)
    | Check(now: Time, duration: int, order: seq<nat>, keymap: nat -> Keymap)

  ghost predicate Allowed(s: Keys, c: Call) {
    match c
    case Down(_, _, _) => true
    case Up(_, _) => true
    case Reset(order, _) => Lists(order, s.held.Keys)
    case Check(now, duration, order, _) => Lists(order, Expired(s, now, duration))
  }

  function Apply(s: Keys, c: Call): Keys {
    match c
    case Down(code, now, m) => KeyDown(s, code, now, m).0
    case Up(code, m) => KeyUp(s, code, m).0
    case Reset(order, keymap) => ReleaseAll(s, order, keymap)
    case Check(_, _, order, keymap) => ReleaseAll(s, order, keymap)
  }

  // ---- what the display sees ------------------------------------------------------------------

  /** The latest event of a keysym. */
  function Latest(log: seq<Event>, keysym: nat): Option<Event> {
    if log == [] then None
    else if log[|log| - 1].keysym == keysym then Some(log[|log| - 1])
    else Latest(log[..|log| - 1], keysym)
  }

  /** Per keysym, presses and releases alternate, starting with a press, and a release carries the keycode
      of its press, unless that was the null keycode. */
  predicate WellPaired(log: seq<Event>) {
    log == [] ||
    (var before, e := log[..|log| - 1], log[|log| - 1];
     var previous := Latest(before, e.keysym);
     && WellPaired(before)
     && e.keysym != 0
     && (if e.down then previous.None? || !previous.value.down
         else previous.Some? && previous.value.down
              && (previous.value.keycode != 0 ==> e.keycode == previous.value.keycode)))
  }

  /** The keysym is pressed, as far as the display knows. */
  predicate Pressed(log: seq<Event>, keysym: nat) {
    var e := Latest(log, keysym);
    e.Some? && e.value.down
  }

  ghost predicate DistinctKeysyms(entries: seq<Entry>) {
    forall i, j :: 0 <= i < j < |entries| ==> entries[i].keysym != entries[j].keysym
  }

  /** What holds between the map, the list and the display for one keysym. */
  ghost predicate KeyOk(s: Keys, keysym: nat) {
    && (Pressed(s.log, keysym) <==> keysym != 0 && keysym in s.held)
    && ((exists e :: e in s.entries && e.keysym == keysym) <==> keysym != 0 && keysym in s.held)
    && (forall e :: e in s.entries && e.keysym == keysym ==>
          Latest(s.log, keysym) == Some(Event(keysym, e.keycode, true)))
  }

  /** The list has exactly one entry for each held keysym but the null one, with the keycode of its press. */
  ghost predicate KeysOk(s: Keys) {
    && WellPaired(s.log)
    && DistinctKeysyms(s.entries)
    && forall k: nat :: KeyOk(s, k)
  }

  lemma LatestAppend(log: seq<Event>, e: Event, k: nat)
    ensures Latest(log + [e], k) == if e.keysym == k then Some(e) else Latest(log, k)
  {
    assert (log + [e])[..|log|] == log;
  }

  lemma WellPairedAppend(log: seq<Event>, e: Event)
    requires WellPaired(log) && e.keysym != 0
    requires if e.down then !Pressed(log, e.keysym)
             else Pressed(log, e.keysym)
                  && (Latest(log, e.keysym).value.keycode != 0 ==> e.keycode == Latest(log, e.keysym).value.keycode)
    ensures WellPaired(log + [e])
  {
    assert (log + [e])[..|log|] == log;
  }

  lemma {:induction false} WithoutEntryKeeps(entries: seq<Entry>, k: nat)
    requires DistinctKeysyms(entries)
    ensures DistinctKeysyms(WithoutEntry(entries, k))
    ensures forall e :: e in WithoutEntry(entries, k) <==> e in entries && e.keysym != k
    ensures (exists e :: e in entries && e.keysym == k) ==> Entry(k, EntryCode(entries, k)) in entries
  {
    if entries != [] {
      assert DistinctKeysyms(entries[1..]);
      WithoutEntryKeeps(entries[1..], k);
      var rest := WithoutEntry(entries[1..], k);
      if entries[0].keysym == k {
        forall e | e in entries[1..] ensures e.keysym != k {
          var i :| 0 <= i < |entries[1..]| && entries[1..][i] == e;
          assert entries[i + 1] == e;
        }
      } else {
        forall e | e in rest ensures e.keysym != entries[0].keysym {
          var i :| 0 <= i < |entries[1..]| && entries[1..][i] == e;
          assert entries[i + 1] == e;
        }
        assert forall i :: 0 < i < |[entries[0]] + rest| ==> ([entries[0]] + rest)[i] in rest;
      }
    }
  }

  lemma NullPressKeeps(s: Keys, s': Keys)
    requires KeysOk(s) && s'.entries == s.entries && s'.log == s.log
    requires forall k: nat :: k != 0 ==> (k in s'.held <==> k in s.held)
    ensures KeysOk(s')
  {
    forall k: nat ensures KeyOk(s', k) {
      assert KeyOk(s, k);
    }
  }

  lemma PressedKeyOk(s: Keys, entry: Entry, s': Keys, k: nat)
    requires KeyOk(s, k) && entry.keysym != 0 && entry.keysym !in s.held && entry.keysym in s'.held
    requires k != entry.keysym ==> (k in s'.held <==> k in s.held)
    requires k == entry.keysym ==> forall e :: e in s.entries ==> e.keysym != k
    requires s'.entries == [entry] + s.entries && s'.log == s.log + [Event(entry.keysym, entry.keycode, true)]
    ensures KeyOk(s', k)
  {
    LatestAppend(s.log, Event(entry.keysym, entry.keycode, true), k);
    assert entry in s'.entries;
    assert forall e :: e in s'.entries <==> e == entry || e in s.entries;
  }

  lemma PressKeeps(s: Keys, code: nat, now: Time, m: Keymap)
    requires KeysOk(s) && code !in s.held
    ensures KeysOk(KeyDown(s, code, now, m).0)
  {
    var s' := KeyDown(s, code, now, m).0;
    assert KeyOk(s, code);
    if code == 0 {
      NullPressKeeps(s, s');
    } else {
      var entry := Entry(code, KeycodeFor(0, m));
      WellPairedAppend(s.log, Event(code, entry.keycode, true));
      FreshEntryIsDistinct(s.entries, entry);
      hide KeyOk, WellPaired, DistinctKeysyms;
      forall k: nat ensures KeyOk(s', k) {
        PressedKeyOk(s, entry, s', k);
      }
    }
  }

  lemma FreshEntryIsDistinct(entries: seq<Entry>, entry: Entry)
    requires DistinctKeysyms(entries) && forall e :: e in entries ==> e.keysym != entry.keysym
    ensures DistinctKeysyms([entry] + entries)
  {
    var longer := [entry] + entries;
    forall i | 0 < i < |longer| ensures longer[i].keysym != entry.keysym {
      assert longer[i] in entries;
    }
  }

  lemma ReleaseKeeps(s: Keys, code: nat, m: Keymap)
    requires KeysOk(s) && code in s.held
    ensures KeysOk(Release(s, code, m))
    ensures Release(s, code, m).held == s.held - {code}
  {
    var s' := Release(s, code, m);
    assert KeyOk(s, code);
    if code != 0 {
      WithoutEntryKeeps(s.entries, code);
      var event := Event(code, KeycodeFor(EntryCode(s.entries, code), m), false);
      WellPairedAppend(s.log, event);
      forall k: nat ensures KeyOk(s', k) {
        LatestAppend(s.log, event, k);
        assert KeyOk(s, k);
      }
    } else {
      forall k: nat ensures KeyOk(s', k) {
        assert KeyOk(s, k);
      }
    }
  }

  lemma {:induction false} ReleaseAllKeeps(s: Keys, order: seq<nat>, keymap: nat -> Keymap)
    requires KeysOk(s) && (forall c :: c in order ==> c in s.held)
    requires forall i, j :: 0 <= i < j < |order| ==> order[i] != order[j]
    ensures KeysOk(ReleaseAll(s, order, keymap))
    ensures ReleaseAll(s, order, keymap).held == s.held - (set c | c in order)
  {
    if order != [] {
      var before, last := order[..|order| - 1], order[|order| - 1];
      ReleaseAllKeeps(s, before, keymap);
      ReleaseKeeps(ReleaseAll(s, before, keymap), last, keymap(last));
    }
  }

  // ---- over any run ---------------------------------------------------------------------------

  ghost predicate IsRun(states: seq<Keys>, calls: seq<Call>) {
    && |states| == |calls| + 1
    && states[0] == NO_KEYS
    && forall i :: 0 <= i < |calls| ==> Allowed(states[i], calls[i]) && states[i + 1] == Apply(states[i], calls[i])
  }

  lemma ApplyKeeps(s: Keys, c: Call)
    requires KeysOk(s) && Allowed(s, c)
    ensures KeysOk(Apply(s, c))
  {
    match c
    case Down(code, now, m) => if code !in s.held { PressKeeps(s, code, now, m); }
    case Up(code, m) => if code in s.held { ReleaseKeeps(s, code, m); }
    case Reset(order, keymap) => ReleaseAllKeeps(s, order, keymap);
    case Check(_, _, order, keymap) => ReleaseAllKeeps(s, order, keymap);
  }

  /** Through presses, releases, resets and time-outs, with a keymap that changes at will: releases match
      their presses, and the list agrees with the map. */
  lemma {:induction false} ReleaseMatchesPress(states: seq<Keys>, calls: seq<Call>, n: nat)
    requires IsRun(states, calls) && n < |states|
    ensures KeysOk(states[n])
  {
    if n == 0 {
      assert forall k: nat :: KeyOk(NO_KEYS, k);
    } else {
      hide KeysOk, Apply, Allowed;
      ReleaseMatchesPress(states, calls, n - 1);
      ApplyKeeps(states[n - 1], calls[n - 1]);
    }
  }

  lemma NothingHeldNothingListed(s: Keys, e: Entry)
    requires KeysOk(s) && s.held == map[]
    ensures e !in s.entries && !Pressed(s.log, e.keysym)
  {
    assert KeyOk(s, e.keysym);
  }

  lemma SomeElement(entries: seq<Entry>)
    ensures entries == [] || entries[0] in entries
  {
  }

  /** After a reset nothing is held, listed or pressed. */
  lemma ResetReleasesAll(s: Keys, order: seq<nat>, keymap: nat -> Keymap, k: nat)
    requires KeysOk(s) && Lists(order, s.held.Keys)
    ensures var s' := ReleaseAll(s, order, keymap); s'.held == map[] && s'.entries == [] && !Pressed(s'.log, k)
  {
    ReleaseAllKeeps(s, order, keymap);
    var s' := ReleaseAll(s, order, keymap);
    assert s'.held == map[];
    NothingHeldNothingListed(s', Entry(k, 0));
    forall e ensures e !in s'.entries {
      NothingHeldNothingListed(s', e);
    }
    SomeElement(s'.entries);
  }

  /** A held keysym is released under the keycode of its press if and only if that was not the null one,
      or the keymap still has nothing to offer. */
  lemma ReleaseMatchesIff(s: Keys, code: nat, m: Keymap)
    requires KeysOk(s) && code in s.held && code != 0
    ensures Pressed(s.log, code)
    ensures var pressed := Latest(s.log, code).value.keycode;
            Latest(Release(s, code, m).log, code) == Some(Event(code, pressed, false))
            <==> pressed != 0 || (m.found == 0 && m.mapped == 0)
  {
    assert KeyOk(s, code);
    WithoutEntryKeeps(s.entries, code);
    LatestAppend(s.log, Event(code, KeycodeFor(EntryCode(s.entries, code), m), false), code);
  }

  /** A press that got the null keycode, because the keymap had nothing to offer, can be released under
      another one: then the keymap is asked again. */
  lemma NullPressCanMismatch()
    ensures var s := KeyDown(NO_KEYS, 7, 0, Keymap(0, 0)).0; var s' := KeyUp(s, 7, Keymap(9, 0)).0;
            s'.log == [Event(7, 0, true), Event(7, 9, false)]
  {
  }
}
