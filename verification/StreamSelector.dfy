/** Choosing a stream by id or by bitrate, and the two passes over all streams of a screen size
    change. */
module StreamSelector {
  import opened Options
  import opened Streams
  import Spec = SinkSpec

  datatype SelectorType = Exact | Nearest | Lower | Higher

  datatype Selector = Selector(kind: SelectorType, id: string, bitrate: nat)

  /** The states of streams at some moment. */
  type Snap = map<StreamSink, Spec.Sink<Track>>

  // ---- neighbours in the list of ids ----------------------------------------------------------

  /** The walk from the end of ids[..n] down to `id`, remembering the last id that has a stream. */
  function WalkDown(ids: seq<string>, known: set<string>, id: string, n: nat, last: Option<string>): (r: Option<string>)
    requires n <= |ids| && (last.Some? ==> last.value in known)
    ensures r.Some? ==> r.value in known
  {
    if n == 0 then None
    else if ids[n - 1] == id then last
    else WalkDown(ids, known, id, n - 1, if ids[n - 1] in known then Some(ids[n - 1]) else last)
  }

  /** The walk from ids[n] up to `id`. */
  function WalkUp(ids: seq<string>, known: set<string>, id: string, n: nat, last: Option<string>): (r: Option<string>)
    requires n <= |ids| && (last.Some? ==> last.value in known)
    ensures r.Some? ==> r.value in known
    decreases |ids| - n
  {
    if n == |ids| then None
    else if ids[n] == id then last
    else WalkUp(ids, known, id, n + 1, if ids[n] in known then Some(ids[n]) else last)
  }

  function LowerID(ids: seq<string>, known: set<string>, id: string): (r: Option<string>)
    ensures r.Some? ==> r.value in known
  {
    WalkDown(ids, known, id, |ids|, None)
  }

  function HigherID(ids: seq<string>, known: set<string>, id: string): (r: Option<string>)
    ensures r.Some? ==> r.value in known
  {
    WalkUp(ids, known, id, 0, None)
  }

  /** r is the first id with a stream in ids[from..to], if there is one. */
  ghost predicate FirstKnown(ids: seq<string>, known: set<string>, from: nat, to: nat, r: Option<string>)
    requires to <= |ids|
  {
    match r
    case None => forall j :: from <= j < to ==> ids[j] !in known
    case Some(x) => exists j :: from <= j < to && ids[j] == x && x in known
                                && forall k :: from <= k < j ==> ids[k] !in known
  }

  /** r is the last id with a stream in ids[from..to], if there is one. */
  ghost predicate LastKnown(ids: seq<string>, known: set<string>, from: nat, to: nat, r: Option<string>)
    requires to <= |ids|
  {
    match r
    case None => forall j :: from <= j < to ==> ids[j] !in known
    case Some(x) => exists j :: from <= j < to && ids[j] == x && x in known
                                && forall k :: j < k < to ==> ids[k] !in known
  }

  lemma {:induction false} WalkDownFinds(ids: seq<string>, known: set<string>, id: string, n: nat,
                                         last: Option<string>, i: nat)
    requires n <= |ids| && FirstKnown(ids, known, n, |ids|, last)
    requires i < n && ids[i] == id && forall j :: i < j < n ==> ids[j] != id
    ensures FirstKnown(ids, known, i + 1, |ids|, WalkDown(ids, known, id, n, last))
  {
    if ids[n - 1] != id {
      WalkDownFinds(ids, known, id, n - 1, if ids[n - 1] in known then Some(ids[n - 1]) else last, i);
    }
  }

  lemma {:induction false} WalkUpFinds(ids: seq<string>, known: set<string>, id: string, n: nat, last: Option<string>,
                                       i: nat)
    requires n <= |ids| && LastKnown(ids, known, 0, n, last)
    requires n <= i < |ids| && ids[i] == id && forall j :: n <= j < i ==> ids[j] != id
    ensures LastKnown(ids, known, 0, i, WalkUp(ids, known, id, n, last))
    decreases |ids| - n
  {
    if ids[n] != id {
      WalkUpFinds(ids, known, id, n + 1, if ids[n] in known then Some(ids[n]) else last, i);
    }
  }

  lemma {:induction false} WalksMiss(ids: seq<string>, known: set<string>, id: string, n: nat, last: Option<string>)
    requires n <= |ids| && id !in ids && (last.Some? ==> last.value in known)
    ensures WalkDown(ids, known, id, n, last) == None
    ensures WalkUp(ids, known, id, n, last) == None
    decreases n
  {
    if n > 0 {
      WalksMiss(ids, known, id, n - 1, if ids[n - 1] in known then Some(ids[n - 1]) else last);
    }
    WalkUpMisses(ids, known, id, n, last);
  }

  lemma {:induction false} WalkUpMisses(ids: seq<string>, known: set<string>, id: string, n: nat, last: Option<string>)
    requires n <= |ids| && id !in ids && (last.Some? ==> last.value in known)
    ensures WalkUp(ids, known, id, n, last) == None
    decreases |ids| - n
  {
    if n < |ids| {
      WalkUpMisses(ids, known, id, n + 1, if ids[n] in known then Some(ids[n]) else last);
    }
  }

  ghost predicate Distinct(ids: seq<string>) {
    forall i, j :: 0 <= i < j < |ids| ==> ids[i] != ids[j]
  }

  ghost predicate LastAt(ids: seq<string>, id: string, i: nat) {
    i < |ids| && ids[i] == id && forall j :: i < j < |ids| ==> ids[j] != id
  }

  ghost predicate FirstAt(ids: seq<string>, id: string, i: nat) {
    i < |ids| && ids[i] == id && forall j :: 0 <= j < i ==> ids[j] != id
  }

  /** r is the nearest id with a stream further down the list than `id`, if both are there. */
  ghost predicate IsBelow(ids: seq<string>, known: set<string>, id: string, r: Option<string>) {
    && (id !in ids ==> r == None)
    && forall i: nat :: LastAt(ids, id, i) ==> FirstKnown(ids, known, i + 1, |ids|, r)
  }

  /** r is the nearest id with a stream further up the list than `id`, if both are there. */
  ghost predicate IsAbove(ids: seq<string>, known: set<string>, id: string, r: Option<string>) {
    && (id !in ids ==> r == None)
    && forall i: nat :: FirstAt(ids, id, i) ==> LastKnown(ids, known, 0, i, r)
  }

  /** Lower finds the nearest id with a stream further down the list, Higher the nearest further up;
      an id that is not listed has neither. No assumption on which ids have streams. */
  lemma NeighboursByID(ids: seq<string>, known: set<string>, id: string)
    ensures IsBelow(ids, known, id, LowerID(ids, known, id))
    ensures IsAbove(ids, known, id, HigherID(ids, known, id))
  {
    if id !in ids {
      WalksMiss(ids, known, id, |ids|, None);
      WalkUpMisses(ids, known, id, 0, None);
    }
    forall i: nat | LastAt(ids, id, i) ensures FirstKnown(ids, known, i + 1, |ids|, LowerID(ids, known, id)) {
      WalkDownFinds(ids, known, id, |ids|, None, i);
    }
    forall i: nat | FirstAt(ids, id, i) ensures LastKnown(ids, known, 0, i, HigherID(ids, known, id)) {
      WalkUpFinds(ids, known, id, 0, None, i);
    }
  }

  /** When every listed id has a stream, Lower and Higher are single steps along the list, fail
      exactly at its two ends, and undo each other. */
  lemma LowerAndHigherAreInverse(ids: seq<string>, known: set<string>, i: nat)
    requires Distinct(ids) && (forall id :: id in ids ==> id in known) && i < |ids|
    ensures LowerID(ids, known, ids[i]) == if i + 1 < |ids| then Some(ids[i + 1]) else None
    ensures HigherID(ids, known, ids[i]) == if i > 0 then Some(ids[i - 1]) else None
    ensures i + 1 < |ids| ==> HigherID(ids, known, LowerID(ids, known, ids[i]).value) == Some(ids[i])
    ensures i > 0 ==> LowerID(ids, known, HigherID(ids, known, ids[i]).value) == Some(ids[i])
  {
    StepByID(ids, known, i);
    if i + 1 < |ids| { StepByID(ids, known, i + 1); }
    if i > 0 { StepByID(ids, known, i - 1); }
  }

  lemma StepByID(ids: seq<string>, known: set<string>, i: nat)
    requires Distinct(ids) && (forall id :: id in ids ==> id in known) && i < |ids|
    ensures LowerID(ids, known, ids[i]) == if i + 1 < |ids| then Some(ids[i + 1]) else None
    ensures HigherID(ids, known, ids[i]) == if i > 0 then Some(ids[i - 1]) else None
  {
    NeighboursByID(ids, known, ids[i]);
    assert LastAt(ids, ids[i], i) && FirstAt(ids, ids[i], i);
    if i + 1 < |ids| { assert ids[i + 1] in known; }
    if i > 0 { assert ids[i - 1] in known; }
    assert FirstKnown(ids, known, i + 1, |ids|, LowerID(ids, known, ids[i]));
    assert LastKnown(ids, known, 0, i, HigherID(ids, known, ids[i]));
  }

  // ---- the nearest bitrate --------------------------------------------------------------------

  const TWO_63: int := 0x8000_0000_0000_0000
  const TWO_64: int := 0x1_0000_0000_0000_0000

  /** The value of an int64 computation. */
  function Wrap64(x: int): int {
    (x + TWO_63) % TWO_64 - TWO_63
  }

  function BitrateDiff(request: nat, bitrate: nat): int {
    Wrap64(Wrap64(request) - Wrap64(bitrate))
  }

  /** The comparison of the sort: nonnegative differences first and ascending, then the negative ones,
      largest first. */
  predicate SortDiff(a: int, b: int) {
    if a < 0 && b < 0 then a > b
    else if a >= 0 then (if b >= 0 then a <= b else true)
    else false
  }

  /** The order that the comparison stands for; unlike it, reflexive throughout. */
  predicate NoWorse(a: int, b: int) {
    SortDiff(a, b) || a == b
  }

  /** b has the best difference to the request of all the given bitrates. */
  ghost predicate BestDiff(bitrates: set<nat>, request: nat, b: nat) {
    b in bitrates && forall c :: c in bitrates ==> NoWorse(BitrateDiff(request, b), BitrateDiff(request, c))
  }

  /** b is the largest bitrate not above the request or, if there is none, the smallest above it. */
  ghost predicate RightChoice(bitrates: set<nat>, request: nat, b: nat) {
    && b in bitrates
    && (if b <= request then forall c :: c in bitrates && c <= request ==> c <= b
        else forall c :: c in bitrates ==> request < c && b <= c)
  }

  ghost predicate Measured(bitrates: set<nat>) {
    forall c :: c in bitrates ==> 0 < c < TWO_63
  }

  lemma DiffIs(request: nat, b: nat)
    requires request < TWO_64 && 0 < b < TWO_63
    ensures BitrateDiff(request, b) == if request - b < TWO_63 then request - b else request - b - TWO_64
  {
    assert Wrap64(b) == b;
    assert Wrap64(request) == if request < TWO_63 then request else request - TWO_64;
  }

  lemma NearestIsRight(bitrates: set<nat>, request: nat, b: nat)
    requires request <= TWO_63 + 1 && Measured(bitrates) && BestDiff(bitrates, request, b)
    ensures RightChoice(bitrates, request, b)
  {
    DiffIs(request, b);
    forall c | c in bitrates
      ensures b <= request && c <= request ==> c <= b
      ensures b > request ==> request < c && b <= c
    {
      DiffIs(request, c);
      assert NoWorse(BitrateDiff(request, b), BitrateDiff(request, c));
    }
  }

  lemma NearestCanBeWrong(request: nat)
    requires TWO_63 + 1 < request < TWO_64
    ensures Measured({1, 2}) && BestDiff({1, 2}, request, 1) && !RightChoice({1, 2}, request, 1)
  {
    DiffIs(request, 1);
    DiffIs(request, 2);
    assert 2 in {1, 2};
  }

  /** Since the difference is taken in 64 bits, requests above 2^63 + 1 can miss; up to there the choice
      is right for all bitrates that fit. */
  lemma NearestRightIff(request: nat)
    requires request < TWO_64
    ensures (forall bitrates: set<nat>, b: nat ::
               Measured(bitrates) && BestDiff(bitrates, request, b) ==> RightChoice(bitrates, request, b))
            <==> request <= TWO_63 + 1
  {
    if request <= TWO_63 + 1 {
      forall bitrates: set<nat>, b: nat | Measured(bitrates) && BestDiff(bitrates, request, b)
        ensures RightChoice(bitrates, request, b)
      {
        NearestIsRight(bitrates, request, b);
      }
    } else {
      NearestCanBeWrong(request);
    }
  }

  // ---- the selector ---------------------------------------------------------------------------

  datatype StreamDiff = StreamDiff(id: string, bitrateDiff: int)

  ghost predicate SortedTo(d: seq<StreamDiff>, n: nat)
    requires n <= |d|
  {
    forall i, j :: 0 <= i < j < n ==> NoWorse(d[i].bitrateDiff, d[j].bitrateDiff)
  }

  function Swap<T>(s: seq<T>, i: nat, j: nat): seq<T>
    requires i < |s| && j < |s|
  {
    s[i := s[j]][j := s[i]]
  }

  lemma SwapPermutes<T>(s: seq<T>, i: nat, j: nat)
    requires i < j < |s|
    ensures multiset(Swap(s, i, j)) == multiset(s)
  {
  }

  /** d[..n] is in order but for the element at j, which may belong further down. */
  ghost predicate SortedButFor(d: seq<StreamDiff>, n: nat, j: nat)
    requires n <= |d|
  {
    forall a, b :: 0 <= a < b < n && b != j ==> NoWorse(d[a].bitrateDiff, d[b].bitrateDiff)
  }

  lemma SwapStep(d: seq<StreamDiff>, n: nat, j: nat)
    requires 0 < j < n <= |d| && SortedButFor(d, n, j)
    requires SortDiff(d[j].bitrateDiff, d[j - 1].bitrateDiff)
    ensures SortedButFor(Swap(d, j - 1, j), n, j - 1)
  {
    var e := Swap(d, j - 1, j);
    forall a, b | 0 <= a < b < n && b != j - 1 ensures NoWorse(e[a].bitrateDiff, e[b].bitrateDiff) {
      var a', b' := if a == j - 1 then j else if a == j then j - 1 else a, if b == j then j - 1 else b;
      assert e[a] == d[a'] && e[b] == d[b'];
      assert a' < b' ==> NoWorse(d[a'].bitrateDiff, d[b'].bitrateDiff);
    }
  }

  lemma InPlace(d: seq<StreamDiff>, n: nat, j: nat)
    requires j < n <= |d| && SortedButFor(d, n, j)
    requires j > 0 ==> !SortDiff(d[j].bitrateDiff, d[j - 1].bitrateDiff)
    ensures SortedTo(d, n)
  {
    forall a | 0 <= a < j ensures NoWorse(d[a].bitrateDiff, d[j].bitrateDiff) {
      assert a < j - 1 ==> NoWorse(d[a].bitrateDiff, d[j - 1].bitrateDiff);
    }
  }

  /** Let element n sink down to its place in the sorted part before it. */
  method InsertDown(d: seq<StreamDiff>, n: nat) returns (r: seq<StreamDiff>)
    requires n < |d| && SortedTo(d, n)
    ensures |r| == |d| && SortedTo(r, n + 1) && multiset(r) == multiset(d)
  {
    r := d;
    var j := n;
    while j > 0 && SortDiff(r[j].bitrateDiff, r[j - 1].bitrateDiff)
      invariant 0 <= j <= n && |r| == |d|
      invariant multiset(r) == multiset(d)
      invariant SortedButFor(r, n + 1, j)
    {
      SwapStep(r, n + 1, j);
      SwapPermutes(r, j - 1, j);
      r := Swap(r, j - 1, j);
      j := j - 1;
    }
    InPlace(r, n + 1, j);
  }

  /** Insertion sort, which is what the library's sort does with up to twelve elements. */
  method SortDiffs(d: seq<StreamDiff>) returns (r: seq<StreamDiff>)
    ensures |r| == |d| && SortedTo(r, |r|) && multiset(r) == multiset(d)
  {
    r := d;
    for i := 0 to |d|
      invariant |r| == |d| && SortedTo(r, i) && multiset(r) == multiset(d)
    {
      r := InsertDown(r, i);
    }
  }

  class StreamSelector {
    const streams: map<string, StreamSink>
    const streamIDs: seq<string>

    constructor (streams: map<string, StreamSink>, streamIDs: seq<string>)
      ensures this.streams == streams && this.streamIDs == streamIDs
    {
      this.streams := streams;
      this.streamIDs := streamIDs;
    }

    /** Sinks are filed under their own ids. */
    predicate Filed() {
      forall id :: id in streams ==> streams[id].id == id
    }

    function Stream(id: Option<string>): Option<StreamSink>
      requires id.Some? ==> id.value in streams
    {
      if id.None? then None else Some(streams[id.value])
    }

    method GetLowerByID(id: string) returns (r: Option<StreamSink>)
      ensures r == Stream(LowerID(streamIDs, streams.Keys, id))
    {
      ghost var lastId: Option<string> := None;
      r := None;
      var i := |streamIDs|;
      while i > 0
        invariant 0 <= i <= |streamIDs|
        invariant (lastId.Some? ==> lastId.value in streams) && r == Stream(lastId)
        invariant LowerID(streamIDs, streams.Keys, id) == WalkDown(streamIDs, streams.Keys, id, i, lastId)
      {
        i := i - 1;
        var streamID := streamIDs[i];
        if streamID == id {
          return;
        }
        if streamID in streams {
          r := Some(streams[streamID]);
          lastId := Some(streamID);
        }
      }
      r := None;
    }

    method GetHigherByID(id: string) returns (r: Option<StreamSink>)
      ensures r == Stream(HigherID(streamIDs, streams.Keys, id))
    {
      ghost var lastId: Option<string> := None;
      r := None;
      for i := 0 to |streamIDs|
        invariant (lastId.Some? ==> lastId.value in streams) && r == Stream(lastId)
        invariant HigherID(streamIDs, streams.Keys, id) == WalkUp(streamIDs, streams.Keys, id, i, lastId)
      {
        var streamID := streamIDs[i];
        if streamID == id {
          return;
        }
        if streamID in streams {
          r := Some(streams[streamID]);
          lastId := Some(streamID);
        }
      }
      r := None;
    }

    /** The states of the streams. */
    ghost function Snapshot(): Snap
      reads streams.Values
    {
      World(streams.Values)
    }

    predicate Considered(id: string)
      requires id in streams
      reads streams.Values
      ensures Considered(id) <==> ConsideredIn(Snapshot(), id)
    {
      streams[id].bitrate != 0 && streams[id].ListenersCount() > 0
    }

    /** A stream counts for bitrate requests if it has listeners and a measured bitrate. */
    ghost predicate ConsideredIn(w: Snap, id: string)
      requires id in streams && streams[id] in w
    {
      w[streams[id]].rate.bitrate != 0 && Spec.Started(w[streams[id]])
    }

    ghost predicate Covers(w: Snap) {
      forall id :: id in streams ==> streams[id] in w
    }

    ghost function ConsideredBitrates(w: Snap): set<nat>
      requires Covers(w)
    {
      set id | id in streams && ConsideredIn(w, id) :: w[streams[id]].rate.bitrate
    }

    /** The considered stream with the best difference, or the first of the list if none counts. */
    ghost predicate AnswersNearest(w: Snap, bitrate: nat, r: Option<StreamSink>)
      requires Covers(w) && |streamIDs| > 0
    {
      var all := ConsideredBitrates(w);
      if all == {} then r == (if streamIDs[0] in streams then Some(streams[streamIDs[0]]) else None)
      else r.Some? && r.value in streams.Values && r.value in w && BestDiff(all, bitrate, w[r.value].rate.bitrate)
    }

    method NearestBitrate(bitrate: nat) returns (r: Option<StreamSink>)
      requires Filed() && |streamIDs| > 0
      ensures AnswersNearest(Snapshot(), bitrate, r)
    {
      hide NoWorse;
      ghost var w := Snapshot();
      var diffs: seq<StreamDiff> := [];
      var rest := streams.Keys;
      while rest != {}
        invariant rest <= streams.Keys
        invariant forall d :: d in diffs ==>
          d.id in streams && ConsideredIn(w, d.id)
          && d.bitrateDiff == BitrateDiff(bitrate, w[streams[d.id]].rate.bitrate)
        invariant forall id :: id in streams && id !in rest && ConsideredIn(w, id) ==>
          StreamDiff(id, BitrateDiff(bitrate, w[streams[id]].rate.bitrate)) in diffs
        decreases rest
      {
        var id :| id in rest;
        rest := rest - {id};
        if Considered(id) {
          diffs := diffs + [StreamDiff(streams[id].id, BitrateDiff(bitrate, streams[id].bitrate))];
        }
      }

      if |diffs| == 0 {
        assert ConsideredBitrates(w) == {};
        return Stream(if streamIDs[0] in streams then Some(streamIDs[0]) else None);
      }
      var sorted := SortDiffs(diffs);
      FirstIsNearest(w, bitrate, diffs, sorted);
      r := Some(streams[sorted[0].id]);
    }

    lemma FirstIsNearest(w: Snap, bitrate: nat, diffs: seq<StreamDiff>, sorted: seq<StreamDiff>)
      requires Covers(w) && |streamIDs| > 0 && diffs != [] && SortedTo(sorted, |sorted|)
               && multiset(sorted) == multiset(diffs)
      requires forall d :: d in diffs ==>
        d.id in streams && ConsideredIn(w, d.id) && d.bitrateDiff == BitrateDiff(bitrate, w[streams[d.id]].rate.bitrate)
      requires forall id :: id in streams && ConsideredIn(w, id) ==>
        StreamDiff(id, BitrateDiff(bitrate, w[streams[id]].rate.bitrate)) in diffs
      ensures sorted != [] && sorted[0].id in streams && AnswersNearest(w, bitrate, Some(streams[sorted[0].id]))
    {
      hide NoWorse;
      assert diffs[0] in multiset(diffs);
      assert |sorted| == |multiset(sorted)|;
      var best := sorted[0];
      assert best in multiset(diffs);
      assert w[streams[best.id]].rate.bitrate in ConsideredBitrates(w);
      forall c | c in ConsideredBitrates(w) ensures NoWorse(best.bitrateDiff, BitrateDiff(bitrate, c)) {
        var id :| id in streams && ConsideredIn(w, id) && w[streams[id]].rate.bitrate == c;
        assert StreamDiff(id, BitrateDiff(bitrate, c)) in multiset(diffs);
        FirstIsBest(sorted, StreamDiff(id, BitrateDiff(bitrate, c)));
      }
    }

    /** Some stream of exactly this bitrate. */
    ghost predicate AnswersExact(w: Snap, bitrate: nat, r: Option<StreamSink>)
      requires Covers(w)
    {
      if exists id :: id in streams && w[streams[id]].rate.bitrate == bitrate
      then r.Some? && r.value in streams.Values && r.value in w && w[r.value].rate.bitrate == bitrate
      else r == None
    }

    /** In whatever order the map is visited. */
    method ExactBitrate(bitrate: nat) returns (r: Option<StreamSink>)
      ensures AnswersExact(Snapshot(), bitrate, r)
    {
      var rest := streams.Keys;
      while rest != {}
        invariant rest <= streams.Keys
        invariant forall id :: id in streams && id !in rest ==> streams[id].bitrate != bitrate
        decreases rest
      {
        var id :| id in rest;
        if streams[id].bitrate == bitrate {
          return Some(streams[id]);
        }
        rest := rest - {id};
      }
      r := None;
    }

    predicate Fits(i: nat, below: bool, bitrate: nat)
      requires i < |streamIDs| && streamIDs[i] in streams
      reads streams.Values
      ensures Fits(i, below, bitrate) <==> FitsIn(Snapshot(), i, below, bitrate)
    {
      && Considered(streamIDs[i])
      && if below then streams[streamIDs[i]].bitrate < bitrate else streams[streamIDs[i]].bitrate > bitrate
    }

    /** Entry i of the list is considered and its bitrate lies on the wanted side. */
    ghost predicate FitsIn(w: Snap, i: int, below: bool, bitrate: nat)
      requires 0 <= i < |streamIDs| && streamIDs[i] in streams && Covers(w)
    {
      && ConsideredIn(w, streamIDs[i])
      && if below then w[streams[streamIDs[i]]].rate.bitrate < bitrate
      else w[streams[streamIDs[i]]].rate.bitrate > bitrate
    }

    /** The first that fits, from the end of the list if it is to be below the bitrate, else from the start. */
    ghost predicate AnswersBeside(w: Snap, below: bool, bitrate: nat, r: Option<StreamSink>)
      requires Covers(w) && forall id :: id in streamIDs ==> id in streams
    {
      match r
      case None => forall i :: 0 <= i < |streamIDs| ==> !FitsIn(w, i, below, bitrate)
      case Some(s) => exists i :: FirstFitIs(w, below, bitrate, i) && s == streams[streamIDs[i]]
    }

    ghost predicate FirstFitIs(w: Snap, below: bool, bitrate: nat, i: int)
      requires Covers(w) && forall id :: id in streamIDs ==> id in streams
    {
      && 0 <= i < |streamIDs| && FitsIn(w, i, below, bitrate)
      && forall j :: 0 <= j < |streamIDs| && (if below then i < j else j < i) ==> !FitsIn(w, j, below, bitrate)
    }

    method LowerBitrate(bitrate: nat) returns (r: Option<StreamSink>)
      requires forall id :: id in streamIDs ==> id in streams
      ensures AnswersBeside(Snapshot(), true, bitrate, r)
    {
      ghost var w := Snapshot();
      var i := |streamIDs|;
      while i > 0
        invariant 0 <= i <= |streamIDs|
        invariant forall j :: i <= j < |streamIDs| ==> !FitsIn(w, j, true, bitrate)
      {
        i := i - 1;
        if Fits(i, true, bitrate) {
          assert FirstFitIs(w, true, bitrate, i);
          return Some(streams[streamIDs[i]]);
        }
      }
      r := None;
    }

    method HigherBitrate(bitrate: nat) returns (r: Option<StreamSink>)
      requires forall id :: id in streamIDs ==> id in streams
      ensures AnswersBeside(Snapshot(), false, bitrate, r)
    {
      ghost var w := Snapshot();
      for i := 0 to |streamIDs|
        invariant forall j :: 0 <= j < i ==> !FitsIn(w, j, false, bitrate)
      {
        if Fits(i, false, bitrate) {
          assert FirstFitIs(w, false, bitrate, i);
          return Some(streams[streamIDs[i]]);
        }
      }
      r := None;
    }

    /** r is the stream of the id, or none if there is no id. */
    ghost predicate IsStreamOf(id: Option<string>, r: Option<StreamSink>) {
      match id
      case None => r == None
      case Some(x) => x in streams && r == Some(streams[x])
    }

    /** The answer to a request by id: that to the nearest id with a stream on the one side or the other, or
        else the stream itself. */
    ghost predicate AnswersByID(s: Selector, r: Option<StreamSink>) {
      match s.kind
      case Lower => exists id :: IsBelow(streamIDs, streams.Keys, s.id, id) && IsStreamOf(id, r)
      case Higher => exists id :: IsAbove(streamIDs, streams.Keys, s.id, id) && IsStreamOf(id, r)
      case _ => if s.id in streams then r == Some(streams[s.id]) else r == None
    }

    /** Bitrate requests need a configuration whose listed ids all have streams. */
    predicate Usable(s: Selector) {
      s.id == "" && s.bitrate != 0 ==>
        Filed() && |streamIDs| > 0 && forall id :: id in streamIDs ==> id in streams
    }

    /** What a request is answered with while the streams are in the states w: an id wins over a bitrate,
        and with neither nothing is found. */
    ghost predicate Answers(w: Snap, s: Selector, r: Option<StreamSink>)
      requires Covers(w) && Usable(s)
    {
      if s.id != "" then AnswersByID(s, r)
      else if s.bitrate == 0 then r == None
      else match s.kind
        case Nearest => AnswersNearest(w, s.bitrate, r)
        case Lower => AnswersBeside(w, true, s.bitrate, r)
        case Higher => AnswersBeside(w, false, s.bitrate, r)
        case Exact => AnswersExact(w, s.bitrate, r)
    }

    /** Only the states of these streams matter. */
    lemma AnswersAgree(v: Snap, w: Snap, s: Selector, r: Option<StreamSink>)
      requires Covers(v) && Covers(w) && (forall id :: id in streams ==> v[streams[id]] == w[streams[id]])
      requires Usable(s) && Answers(v, s, r)
      ensures Answers(w, s, r)
    {
      assert forall id :: id in streams ==> (ConsideredIn(v, id) <==> ConsideredIn(w, id));
      assert ConsideredBitrates(v) == ConsideredBitrates(w);
      if s.id == "" && s.bitrate != 0 && (s.kind.Lower? || s.kind.Higher?) {
        assert forall i :: 0 <= i < |streamIDs|
                 ==> (FitsIn(v, i, s.kind.Lower?, s.bitrate) <==> FitsIn(w, i, s.kind.Lower?, s.bitrate));
        if r.Some? {
          var i :| FirstFitIs(v, s.kind.Lower?, s.bitrate, i) && r.value == streams[streamIDs[i]];
          assert FirstFitIs(w, s.kind.Lower?, s.bitrate, i);
        }
      }
    }

    lemma AnswerIsStream(w: Snap, s: Selector, r: Option<StreamSink>)
      requires Covers(w) && Usable(s) && Answers(w, s, r)
      ensures r.Some? ==> r.value in streams.Values
    {
    }

    method GetStream(s: Selector) returns (r: Option<StreamSink>)
      requires Usable(s)
      ensures Answers(Snapshot(), s, r)
    {
      if s.id != "" {
        NeighboursByID(streamIDs, streams.Keys, s.id);
        if s.kind == Lower {
          r := GetLowerByID(s.id);
          assert IsStreamOf(LowerID(streamIDs, streams.Keys, s.id), r);
        } else if s.kind == Higher {
          r := GetHigherByID(s.id);
          assert IsStreamOf(HigherID(streamIDs, streams.Keys, s.id), r);
        } else {
          r := if s.id in streams then Some(streams[s.id]) else None;
        }
        return;
      }
      if s.bitrate != 0 {
        if s.kind == Nearest {
          r := NearestBitrate(s.bitrate);
        } else if s.kind == Lower {
          r := LowerBitrate(s.bitrate);
        } else if s.kind == Higher {
          r := HigherBitrate(s.bitrate);
        } else {
          r := ExactBitrate(s.bitrate);
        }
        return;
      }
      r := None;
    }

    /** Every stream with listeners loses its pipeline. */
    method DestroyPipelines()
      modifies streams.Values
      ensures forall s :: s in streams.Values ==> s.State() == Spec.BeforeResize(old(s.State()))
    {
      var rest := streams.Values;
      while rest != {}
        invariant rest <= streams.Values
        invariant forall s :: s in rest ==> s.State() == old(s.State())
        invariant forall s :: s in streams.Values - rest ==> s.State() == Spec.BeforeResize(old(s.State()))
        decreases rest
      {
        var s :| s in rest;
        if s.ListenersCount() > 0 {
          s.DestroyPipeline();
        }
        rest := rest - {s};
      }
    }

    /** Every stream with listeners has a pipeline again, unless building one fails: then the pass ends
        there. `works` is the set of streams whose pipeline can be built. */
    method RecreatePipelines(works: set<StreamSink>) returns (ok: bool)
      modifies streams.Values
      ensures ok ==> forall s :: s in streams.Values ==>
                (s.State(), true) == Spec.AfterResize(old(s.State()), s in works)
      ensures !ok ==> exists s :: s in streams.Values && !Spec.AfterResize(old(s.State()), s in works).1
      ensures !ok ==> forall s :: s in streams.Values ==>
                (s.State(), true) == Spec.AfterResize(old(s.State()), s in works) || s.State() == old(s.State())
    {
      var rest := streams.Values;
      while rest != {}
        invariant rest <= streams.Values
        invariant forall s :: s in rest ==> s.State() == old(s.State())
        invariant forall s :: s in streams.Values - rest ==>
          (s.State(), true) == Spec.AfterResize(old(s.State()), s in works)
        decreases rest
      {
        var s :| s in rest;
        var recreated := RecreateOne(s, s in works);
        if !recreated {
          return false;
        }
        rest := rest - {s};
      }
      ok := true;
    }

    method RecreateOne(s: StreamSink, works: bool) returns (ok: bool)
      modifies s
      ensures (s.State(), ok) == Spec.AfterResize(old(s.State()), works)
    {
      ok := true;
      if s.ListenersCount() > 0 {
        var r := s.CreatePipeline(works);
        ok := r != Spec.CreateFailed;
      }
    }
  }

  lemma FirstIsBest(d: seq<StreamDiff>, x: StreamDiff)
    requires SortedTo(d, |d|) && x in d
    ensures NoWorse(d[0].bitrateDiff, x.bitrateDiff)
  {
    var k :| 0 <= k < |d| && d[k] == x;
  }
}
