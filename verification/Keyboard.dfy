/** The keyboard as it changes in place: the debounce map, and the linked list of pressed keysyms. */
module Keyboard {
  import opened Options
  import Spec = KeySpec

  class KeyEntry {
    const keysym: nat
    const keycode: nat
    var next: KeyEntry?

    constructor (keysym: nat, keycode: nat, next: KeyEntry?)
      ensures this.keysym == keysym && this.keycode == keycode && this.next == next
    {
      this.keysym, this.keycode, this.next := keysym, keycode, next;
    }
  }

  class KeyList {
    var head: KeyEntry?
    ghost var nodes: seq<KeyEntry>

    /** The nodes are chained in their order, and no node comes twice. */
    ghost predicate Valid()
      reads this, nodes
    {
      && head == NodeAt(0)
      && (forall i :: 0 <= i < |nodes| ==> nodes[i].next == NodeAt(i + 1))
      && (forall i, j :: 0 <= i < j < |nodes| ==> nodes[i] != nodes[j])
    }

    ghost function NodeAt(i: nat): KeyEntry?
      reads this
    {
      if i < |nodes| then nodes[i] else null
    }

    ghost function Contents(): seq<Spec.Entry>
      reads this
    {
      Entries(nodes)
    }

    constructor ()
      ensures Valid() && Contents() == [] && nodes == []
    {
      head, nodes := null, [];
    }

    /** Put a new entry at the front. */
    method Add(keysym: nat, keycode: nat)
      requires Valid()
      modifies this
      ensures Valid() && fresh(set n | n in nodes && n !in old(nodes))
      ensures Contents() == [Spec.Entry(keysym, keycode)] + old(Contents())
    {
      var entry := new KeyEntry(keysym, keycode, head);
      head := entry;
      nodes := [entry] + nodes;
      assert nodes[1..] == old(nodes);
    }

    /** Splice out the first node. */
    method UnlinkHead(curr: KeyEntry)
      requires Valid() && |nodes| > 0 && nodes[0] == curr
      modifies this
      ensures Valid() && nodes == old(nodes)[1..]
    {
      assert curr.next == NodeAt(1);
      head := curr.next;
      nodes := nodes[1..];
    }

    /** Splice out node i + 1, given the one before it. */
    method UnlinkAfter(prev: KeyEntry, curr: KeyEntry, ghost i: nat)
      requires Valid() && i + 1 < |nodes| && nodes[i] == prev && nodes[i + 1] == curr
      modifies this`nodes, prev
      ensures Valid() && nodes == old(nodes)[..i + 1] + old(nodes)[i + 2..]
    {
      prev.next := curr.next;
      nodes := nodes[..i + 1] + nodes[i + 2..];
    }

    /** Take out the first entry for the keysym and answer its keycode, or zero if there is none. */
    method Get(keysym: nat) returns (keycode: nat)
      requires Valid()
      modifies this, nodes
      ensures Valid() && (forall n :: n in nodes ==> n in old(nodes))
      ensures keycode == Spec.EntryCode(old(Contents()), keysym)
      ensures Contents() == Spec.WithoutEntry(old(Contents()), keysym)
    {
      var prev: KeyEntry? := null;
      var curr := head;
      ghost var i := 0;
      while curr != null
        invariant 0 <= i <= |nodes| && curr == NodeAt(i)
        invariant prev == (if i == 0 then null else NodeAt(i - 1))
        invariant forall k :: 0 <= k < i ==> nodes[k].keysym != keysym
        decreases |nodes| - i
      {
        if curr.keysym == keysym {
          FoundAt(nodes, keysym, i);
          keycode := curr.keycode;
          if prev == null {
            UnlinkHead(curr);
          } else {
            UnlinkAfter(prev, curr, i - 1);
          }
          return;
        }
        prev := curr;
        curr := curr.next;
        i := i + 1;
      }
      FoundNowhere(nodes, keysym);
      keycode := 0;
    }
  }

  ghost function Entries(nodes: seq<KeyEntry>): seq<Spec.Entry> {
    if nodes == [] then [] else [Spec.Entry(nodes[0].keysym, nodes[0].keycode)] + Entries(nodes[1..])
  }

  lemma {:induction false} FoundAt(nodes: seq<KeyEntry>, keysym: nat, i: nat)
    requires i < |nodes| && nodes[i].keysym == keysym
    requires forall k :: 0 <= k < i ==> nodes[k].keysym != keysym
    ensures Spec.EntryCode(Entries(nodes), keysym) == nodes[i].keycode
    ensures Spec.WithoutEntry(Entries(nodes), keysym) == Entries(nodes[..i] + nodes[i + 1..])
  {
    assert Entries(nodes)[1..] == Entries(nodes[1..]);
    if i == 0 {
      assert nodes[..0] + nodes[1..] == nodes[1..];
    } else {
      FoundAt(nodes[1..], keysym, i - 1);
      var without := nodes[..i] + nodes[i + 1..];
      assert without[0] == nodes[0];
      assert without[1..] == nodes[1..][..i - 1] + nodes[1..][i..];
    }
  }

  lemma {:induction false} FoundNowhere(nodes: seq<KeyEntry>, keysym: nat)
    requires forall k :: 0 <= k < |nodes| ==> nodes[k].keysym != keysym
    ensures Spec.EntryCode(Entries(nodes), keysym) == 0
    ensures Spec.WithoutEntry(Entries(nodes), keysym) == Entries(nodes)
  {
    if nodes != [] {
      assert Entries(nodes)[1..] == Entries(nodes[1..]);
      FoundNowhere(nodes[1..], keysym);
    }
  }

  class Keyboard {
    var debounceKey: map<nat, Spec.Time>
    const xKeys: KeyList
    var emitted: seq<Spec.Event>      // the key events sent to the display

    ghost predicate Valid()
      reads this, xKeys, xKeys.nodes
    {
      xKeys.Valid()
    }

    ghost function View(): Spec.Keys
      reads this, xKeys
    {
      Spec.Keys(debounceKey, xKeys.Contents(), emitted)
    }

    constructor ()
      ensures Valid() && View() == Spec.NO_KEYS && fresh(xKeys)
    {
      debounceKey, emitted := map[], [];
      xKeys := new KeyList();
    }

    /** `m` is what the keymap answers during the call. */
    method XKey(keysym: nat, down: bool, m: Spec.Keymap)
      requires Valid()
      modifies this`emitted, xKeys, xKeys.nodes
      ensures Valid() && fresh(set n | n in xKeys.nodes && n !in old(xKeys.nodes))
      ensures View() == Spec.XKey(old(View()), keysym, down, m)
    {
      if keysym == 0 {
        return;
      }
      var keycode := 0;
      if !down {
        keycode := xKeys.Get(keysym);
      }
      if keycode == 0 {
        keycode := m.found;
      }
      if keycode == 0 {
        keycode := m.mapped;
      }
      if down {
        xKeys.Add(keysym, keycode);
      }
      emitted := emitted + [Spec.Event(keysym, keycode, down)];
    }

    method KeyDown(code: nat, now: Spec.Time, m: Spec.Keymap) returns (ok: bool)
      requires Valid()
      modifies this, xKeys, xKeys.nodes
      ensures Valid() && fresh(set n | n in xKeys.nodes && n !in old(xKeys.nodes))
      ensures (View(), ok) == Spec.KeyDown(old(View()), code, now, m)
    {
      if code in debounceKey {
        return false;
      }
      debounceKey := debounceKey[code := now];
      XKey(code, true, m);
      ok := true;
    }

    method KeyUp(code: nat, m: Spec.Keymap) returns (ok: bool)
      requires Valid()
      modifies this, xKeys, xKeys.nodes
      ensures Valid() && fresh(set n | n in xKeys.nodes && n !in old(xKeys.nodes))
      ensures (View(), ok) == Spec.KeyUp(old(View()), code, m)
    {
      if code !in debounceKey {
        return false;
      }
      Release(code, m);
      ok := true;
    }

    method Release(code: nat, m: Spec.Keymap)
      requires Valid()
      modifies this, xKeys, xKeys.nodes
      ensures Valid() && fresh(set n | n in xKeys.nodes && n !in old(xKeys.nodes))
      ensures View() == Spec.Release(old(View()), code, m)
    {
      hide Spec.XKey;
      debounceKey := debounceKey - {code};
      XKey(code, false, m);
    }

    /** Release every held key, in whatever order the map is visited, which `order` records. */
    method ResetKeys(keymap: nat -> Spec.Keymap) returns (ghost order: seq<nat>)
      requires Valid()
      modifies this, xKeys, xKeys.nodes
      ensures Valid() && Spec.Lists(order, old(debounceKey.Keys))
      ensures View() == Spec.ReleaseAll(old(View()), order, keymap)
    {
      order := ReleaseSome(debounceKey.Keys, keymap);
    }

    /** Release the keys that have been held for too long. */
    method CheckKeys(now: Spec.Time, duration: int, keymap: nat -> Spec.Keymap) returns (ghost order: seq<nat>)
      requires Valid()
      modifies this, xKeys, xKeys.nodes
      ensures Valid() && Spec.Lists(order, Spec.Expired(old(View()), now, duration))
      ensures View() == Spec.ReleaseAll(old(View()), order, keymap)
    {
      var expired := set c | c in debounceKey && now - debounceKey[c] >= duration;
      order := ReleaseSome(expired, keymap);
    }

    method ReleaseSome(codes: set<nat>, keymap: nat -> Spec.Keymap) returns (ghost order: seq<nat>)
      requires Valid() && codes <= debounceKey.Keys
      modifies this, xKeys, xKeys.nodes
      ensures Valid() && Spec.Lists(order, codes)
      ensures View() == Spec.ReleaseAll(old(View()), order, keymap)
    {
      hide Spec.Release, Valid;
      ghost var s := View();
      order := [];
      var rest := codes;
      while rest != {}
        invariant rest <= codes && Valid()
        invariant fresh(set n | n in xKeys.nodes && n !in old(xKeys.nodes))
        invariant Spec.Lists(order, codes - rest)
        invariant View() == Spec.ReleaseAll(s, order, keymap)
        decreases rest
      {
        var code :| code in rest;
        rest := rest - {code};
        Release(code, keymap(code));
        ghost var longer := order + [code];
        assert longer[..|longer| - 1] == order;
        order := longer;
      }
    }
  }
}
