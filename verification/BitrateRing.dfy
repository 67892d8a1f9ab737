/** The three-bucket byte counter from which a sink publishes its bitrate. */
module BitrateRing {

  /** One encoded unit; `timestamp` is in whole seconds since the epoch. */
  datatype Sample = Sample(data: seq<bv8>, length: nat, timestamp: int, deltaUnit: bool)

  datatype Rate = Rate(buckets: map<int, nat>, bitrate: nat)

  const FRESH := Rate(map[], 0)

  /** Remainder that truncates toward zero, so that it is negative for a negative dividend. */
  function TruncMod(a: int, b: nat): int
    requires b > 0
  {
    if a >= 0 then a % b else -((-a) % b)
  }

  /** A bucket that was never written reads as zero. */
  function Bucket(buckets: map<int, nat>, k: int): nat {
    if k in buckets then buckets[k] else 0
  }

  function SaveSampleBitrate(r: Rate, timestamp: int, delta: nat): Rate {
    var last := TruncMod(timestamp - 1, 3);
    var curr := TruncMod(timestamp, 3);
    var next := TruncMod(timestamp + 1, 3);
    var published := if Bucket(r.buckets, next) != 0
                     then Rate(r.buckets[next := 0], Bucket(r.buckets, last))
                     else r;
    published.(buckets := published.buckets[curr := Bucket(published.buckets, curr) + delta])
  }

  /** The counter of a pipeline that has emitted `h`. */
  function Counter(h: seq<Sample>): Rate {
    if h == [] then FRESH
    else SaveSampleBitrate(Counter(h[..|h|-1]), h[|h|-1].timestamp, h[|h|-1].length)
  }

  // ---- the window it stands for ---------------------------------------------------------------

  /** All bytes of second s. */
  function BytesIn(h: seq<Sample>, s: int): nat {
    if h == [] then 0
    else BytesIn(h[..|h|-1], s) + (if h[|h|-1].timestamp == s then h[|h|-1].length else 0)
  }

  function First(h: seq<Sample>): int
    requires h != []
  {
    h[0].timestamp
  }

  function Now(h: seq<Sample>): int
    requires h != []
  {
    h[|h|-1].timestamp
  }

  ghost predicate Ordered(h: seq<Sample>) {
    forall i, j :: 0 <= i < j < |h| ==> h[i].timestamp <= h[j].timestamp
  }

  /** Every second that is over carried some bytes. */
  ghost predicate Gapless(h: seq<Sample>)
    requires h != []
  {
    forall s :: First(h) <= s < Now(h) ==> BytesIn(h, s) > 0
  }

  lemma {:induction false} NoBytesOutside(h: seq<Sample>, s: int)
    requires Ordered(h)
    requires h == [] || s < First(h) || s > Now(h)
    ensures BytesIn(h, s) == 0
  {
    if |h| > 0 {
      NoBytesOutside(h[..|h|-1], s);
    }
  }

  /** A new second follows the previous one, because none in between can have bytes. */
  lemma SecondsAreConsecutive(h: seq<Sample>)
    requires |h| >= 2 && Ordered(h) && Gapless(h)
    ensures Now(h) - Now(h[..|h|-1]) <= 1
    ensures Gapless(h[..|h|-1])
    ensures Now(h) > Now(h[..|h|-1]) ==> BytesIn(h[..|h|-1], Now(h[..|h|-1])) > 0
  {
    var p := h[..|h|-1];
    forall s | First(p) <= s < Now(h) ensures BytesIn(p, s) > 0 {
      assert BytesIn(h, s) > 0;
    }
    if Now(h) - Now(p) > 1 {
      NoBytesOutside(p, Now(p) + 1);
      assert false;
    }
  }

  /** In second s the ring counts `cur` bytes, remembers `prev` from the second before, and its third
      bucket is empty. */
  ghost predicate Window(r: Rate, s: nat, cur: nat, prev: nat) {
    && Bucket(r.buckets, s % 3) == cur
    && Bucket(r.buckets, (s + 1) % 3) == 0
    && Bucket(r.buckets, (s + 2) % 3) == prev
  }

  lemma SameSecond(r: Rate, s: nat, cur: nat, prev: nat, delta: nat)
    requires Window(r, s, cur, prev)
    ensures Window(SaveSampleBitrate(r, s, delta), s, cur + delta, prev)
    ensures SaveSampleBitrate(r, s, delta).bitrate == r.bitrate
  {
    assert s % 3 != (s + 1) % 3 && (s + 1) % 3 != (s + 2) % 3 && s % 3 != (s + 2) % 3;
  }

  lemma NextSecond(r: Rate, s: nat, cur: nat, prev: nat, delta: nat)
    requires Window(r, s, cur, prev)
    ensures Window(SaveSampleBitrate(r, s + 1, delta), s + 1, delta, cur)
    ensures SaveSampleBitrate(r, s + 1, delta).bitrate == if prev != 0 then cur else r.bitrate
  {
    assert s % 3 != (s + 1) % 3 && (s + 1) % 3 != (s + 2) % 3 && s % 3 != (s + 2) % 3;
    assert (s + 3) % 3 == s % 3;
  }

  ghost predicate RingIsExact(h: seq<Sample>)
    requires h != [] && Now(h) >= 0
  {
    && Window(Counter(h), Now(h), BytesIn(h, Now(h)), BytesIn(h, Now(h) - 1))
    && Counter(h).bitrate == if Now(h) >= First(h) + 2 then BytesIn(h, Now(h) - 1) else 0
  }

  lemma FirstSampleIsExact(h: seq<Sample>)
    requires |h| == 1 && First(h) >= 0
    ensures RingIsExact(h)
  {
    assert h[..0] == [] && BytesIn([], Now(h)) == 0 && BytesIn([], Now(h) - 1) == 0;
    SameSecond(FRESH, Now(h), 0, 0, h[0].length);
  }

  lemma SampleOfSameSecond(p: seq<Sample>, h: seq<Sample>)
    requires |h| >= 2 && p == h[..|h|-1] && First(h) >= 0 && Ordered(h)
    requires Now(h) == Now(p) && RingIsExact(p)
    ensures RingIsExact(h)
  {
    SameSecond(Counter(p), Now(p), BytesIn(p, Now(p)), BytesIn(p, Now(p) - 1), h[|h|-1].length);
  }

  lemma SampleOfNextSecond(p: seq<Sample>, h: seq<Sample>)
    requires |h| >= 2 && p == h[..|h|-1] && First(h) >= 0 && Ordered(h) && Gapless(p)
    requires Now(h) == Now(p) + 1 && RingIsExact(p)
    ensures RingIsExact(h)
  {
    var s := Now(p);
    NextSecond(Counter(p), s, BytesIn(p, s), BytesIn(p, s - 1), h[|h|-1].length);
    NoBytesOutside(p, s + 1);
    if s - 1 < First(h) {
      NoBytesOutside(p, s - 1);
    } else {
      assert BytesIn(p, s - 1) > 0;
    }
  }

  /** Each bucket holds the bytes of one second: the running one, the one before, or of none. */
  lemma {:induction false} BucketsHoldOneSecond(h: seq<Sample>)
    requires h != [] && Ordered(h) && First(h) >= 0 && Gapless(h)
    ensures RingIsExact(h)
  {
    var p := h[..|h|-1];
    if p == [] {
      FirstSampleIsExact(h);
    } else {
      SecondsAreConsecutive(h);
      BucketsHoldOneSecond(p);
      if Now(h) == Now(p) { SampleOfSameSecond(p, h); } else { SampleOfNextSecond(p, h); }
    }
  }

  /** From the third second on, the published rate is the byte total of the second before, through
      the whole running second. */
  lemma PublishedRateIsPreviousSecond(h: seq<Sample>, n: nat)
    requires h != [] && Ordered(h) && First(h) >= 0 && Gapless(h)
    requires 0 < n <= |h| && h[n-1].timestamp >= First(h) + 2
    ensures Counter(h[..n]).bitrate == BytesIn(h, h[n-1].timestamp - 1)
  {
    hide Window, Counter, BytesIn, Gapless;
    var p := h[..n];
    PrefixKeepsPast(h, n);
    BucketsHoldOneSecond(p);
  }

  /** Bytes of a second that is over do not change any more. */
  lemma {:induction false} PrefixKeepsPast(h: seq<Sample>, n: nat)
    requires 0 < n <= |h| && Ordered(h)
    ensures forall s :: s < h[n-1].timestamp ==> BytesIn(h[..n], s) == BytesIn(h, s)
    ensures Gapless(h) ==> Gapless(h[..n])
  {
    if n < |h| {
      var p := h[..|h|-1];
      PrefixKeepsPast(p, n);
      assert p[..n] == h[..n];
    } else {
      assert h[..n] == h;
    }
  }

  // ---- with idle seconds ----------------------------------------------------------------------

  /** Every second that had samples and is over carried some bytes. */
  ghost predicate Carries(h: seq<Sample>)
    requires h != []
  {
    forall i :: 0 <= i < |h| && h[i].timestamp < Now(h) ==> BytesIn(h, h[i].timestamp) > 0
  }

  /** What the timestamps alone tell about the ring: whether the bucket of the second before is `primed` to
      let the next second publish, whether the running bucket is `clean` of bytes of earlier seconds, and
      whether the published rate is `loud`, that is, not zero. */
  datatype Shape = Shape(primed: bool, clean: bool, loud: bool)

  function ShapeOf(h: seq<Sample>): Shape
    requires h != []
  {
    if |h| == 1 then Shape(false, true, false)
    else
      var p := h[..|h|-1];
      var before, gap := ShapeOf(p), Now(h) - Now(p);
      if gap == 0 then before
      else if gap % 3 == 1 then Shape(true, true, before.primed)
      else if gap % 3 == 2 then Shape(false, !before.primed, false)
      else Shape(before.primed, false, before.loud)
  }

  /** Whether the rate that the running second publishes is right, by the timestamps. The gap to the second
      that had samples before decides: no gap needs a primed and clean ring; a gap that leaves the same
      buckets in their roles needs an unprimed one; one that moves them on by two is always right; and one
      that moves them on by three needs silence. */
  predicate RightByTimestamps(h: seq<Sample>)
    requires h != []
  {
    |h| == 1 ||
    (var p := h[..|h|-1];
     var before, gap := ShapeOf(p), Now(h) - Now(p);
     if gap == 0 then RightByTimestamps(p)
     else if gap == 1 then before.primed && before.clean
     else if gap % 3 == 1 then !before.primed
     else if gap % 3 == 2 then true
     else !before.loud)
  }

  lemma AnySecond(r: Rate, p: nat, cur: nat, prev: nat, gap: nat, delta: nat)
    requires Window(r, p, cur, prev) && gap > 0
    ensures var r' := SaveSampleBitrate(r, p + gap, delta);
            if gap % 3 == 1 then
              Window(r', p + gap, delta, cur) && r'.bitrate == if prev != 0 then cur else r.bitrate
            else if gap % 3 == 2 then
              Window(r', p + gap, prev + delta, 0) && r'.bitrate == if cur != 0 then 0 else r.bitrate
            else
              Window(r', p + gap, cur + delta, prev) && r'.bitrate == r.bitrate
  {
    Roles(p, gap);
  }

  /** Which of the buckets of second p are the running one, the next and the last one after the gap. */
  lemma Roles(p: nat, gap: nat)
    requires gap > 0
    ensures var s := p + gap;
            if gap % 3 == 1 then s % 3 == (p + 1) % 3 && (s + 1) % 3 == (p + 2) % 3
               && (s + 2) % 3 == (s - 1) % 3 == p % 3
            else if gap % 3 == 2 then s % 3 == (p + 2) % 3 && (s + 1) % 3 == p % 3
                    && (s + 2) % 3 == (s - 1) % 3 == (p + 1) % 3
            else s % 3 == p % 3 && (s + 1) % 3 == (p + 1) % 3 && (s + 2) % 3 == (s - 1) % 3 == (p + 2) % 3
    ensures p % 3 != (p + 1) % 3 && (p + 1) % 3 != (p + 2) % 3 && p % 3 != (p + 2) % 3
  {
    var k := gap / 3;
    Period(p, k);
    Period(p + 1, k);
    Period(p + 2, k);
    Period(p, k + 1);
    Period(p + 1, k + 1);
    if k > 0 {
      Period(p + 2, k - 1);
    }
  }

  lemma Period(a: nat, k: nat)
    ensures (a + 3 * k) % 3 == a % 3
  {
    assert a + 3 * k == 3 * (a / 3 + k) + a % 3;
  }

  /** The ring is in the shape that the timestamps tell, and publishes what they say is right. */
  ghost predicate RingIsShaped(h: seq<Sample>)
    requires h != [] && Now(h) >= 0
  {
    exists cur: nat, prev: nat :: IsShaped(h, cur, prev)
  }

  ghost predicate IsShaped(h: seq<Sample>, cur: nat, prev: nat)
    requires h != [] && Now(h) >= 0
  {
    var shape := ShapeOf(h);
    && Window(Counter(h), Now(h), cur, prev)
    && BytesIn(h, Now(h)) <= cur && (shape.clean <==> cur == BytesIn(h, Now(h)))
    && (shape.primed <==> prev != 0)
    && (shape.loud <==> Counter(h).bitrate != 0)
    && (shape.loud ==> shape.primed)
    && (RightByTimestamps(h) <==> Counter(h).bitrate == BytesIn(h, Now(h) - 1))
  }

  lemma ShapedFirst(h: seq<Sample>)
    requires |h| == 1 && First(h) >= 0
    ensures IsShaped(h, h[0].length, 0)
  {
    assert h[..0] == [] && BytesIn([], Now(h)) == 0 && BytesIn([], Now(h) - 1) == 0;
    SameSecond(FRESH, Now(h), 0, 0, h[0].length);
  }

  lemma ShapedSameSecond(p: seq<Sample>, h: seq<Sample>, cur: nat, prev: nat)
    requires |h| >= 2 && p == h[..|h|-1] && First(h) >= 0 && Ordered(h) && Now(h) == Now(p)
    requires IsShaped(p, cur, prev)
    ensures IsShaped(h, cur + h[|h|-1].length, prev)
  {
    hide Window;
    SameSecond(Counter(p), Now(p), cur, prev, h[|h|-1].length);
  }

  /** Nothing comes from the seconds in between. */
  lemma GapIsSilent(p: seq<Sample>, h: seq<Sample>)
    requires |h| >= 2 && p == h[..|h|-1] && Ordered(h) && Now(h) > Now(p)
    ensures BytesIn(h, Now(h)) == h[|h|-1].length
    ensures BytesIn(h, Now(h) - 1) == if Now(h) == Now(p) + 1 then BytesIn(p, Now(p)) else 0
  {
    NoBytesOutside(p, Now(h));
    if Now(h) > Now(p) + 1 {
      NoBytesOutside(p, Now(h) - 1);
    }
  }

  lemma ShapedNextSecond(p: seq<Sample>, h: seq<Sample>, cur: nat, prev: nat)
    requires |h| >= 2 && p == h[..|h|-1] && First(h) >= 0 && Ordered(h) && Now(h) > Now(p) >= 0
    requires IsShaped(p, cur, prev) && BytesIn(p, Now(p)) > 0
    ensures var gap, d := Now(h) - Now(p), h[|h|-1].length;
            if gap % 3 == 1 then IsShaped(h, d, cur)
            else if gap % 3 == 2 then IsShaped(h, prev + d, 0)
            else IsShaped(h, cur + d, prev)
  {
    hide Window, SaveSampleBitrate;
    GapIsSilent(p, h);
    AnySecond(Counter(p), Now(p), cur, prev, Now(h) - Now(p), h[|h|-1].length);
  }

  lemma {:induction false} ShapesHold(h: seq<Sample>)
    requires h != [] && Ordered(h) && First(h) >= 0 && Carries(h)
    ensures RingIsShaped(h)
  {
    hide IsShaped;
    var p := h[..|h|-1];
    if p == [] {
      ShapedFirst(h);
    } else {
      CarriesFront(h);
      ShapesHold(p);
      var cur: nat, prev: nat :| IsShaped(p, cur, prev);
      if Now(h) == Now(p) { ShapedSameSecond(p, h, cur, prev); } else { ShapedNextSecond(p, h, cur, prev); }
    }
  }

  lemma CarriesFront(h: seq<Sample>)
    requires |h| >= 2 && Ordered(h) && Carries(h)
    ensures var p := h[..|h|-1]; Carries(p) && (Now(h) > Now(p) ==> BytesIn(p, Now(p)) > 0)
  {
    var p := h[..|h|-1];
    forall i | 0 <= i < |p| && p[i].timestamp < Now(h) ensures BytesIn(p, p[i].timestamp) > 0 {
      assert h[i].timestamp < Now(h) && BytesIn(h, h[i].timestamp) > 0;
    }
  }

  /** Idle seconds or not, the published rate is the byte total of the second before if and only if the
      timestamps say so. */
  lemma RateIsRightIff(h: seq<Sample>)
    requires h != [] && Ordered(h) && First(h) >= 0 && Carries(h)
    ensures Counter(h).bitrate == BytesIn(h, Now(h) - 1) <==> RightByTimestamps(h)
  {
    hide Window, ShapeOf, RightByTimestamps;
    ShapesHold(h);
  }

  lemma {:induction false} CarriesPrefix(h: seq<Sample>, n: nat)
    requires 0 < n <= |h| && Ordered(h) && Carries(h)
    ensures Carries(h[..n])
  {
    if n < |h| {
      CarriesFront(h);
      CarriesPrefix(h[..|h|-1], n);
      assert h[..|h|-1][..n] == h[..n];
    } else {
      assert h[..n] == h;
    }
  }

  /** The rate published when sample n has come is right, and the timestamps say so. */
  ghost predicate RightAfter(h: seq<Sample>, n: int)
    requires 0 < n <= |h|
  {
    Counter(h[..n]).bitrate == BytesIn(h, h[n-1].timestamp - 1)
  }

  ghost predicate SaidRightAfter(h: seq<Sample>, n: int)
    requires 0 < n <= |h|
  {
    RightByTimestamps(h[..n])
  }

  lemma RightAfterIff(h: seq<Sample>, n: int)
    requires 0 < n <= |h| && Ordered(h) && First(h) >= 0 && Carries(h)
    ensures RightAfter(h, n) <==> SaidRightAfter(h, n)
  {
    hide Carries, Counter, RightByTimestamps, BytesIn;
    PrefixKeepsPast(h, n);
    CarriesPrefix(h, n);
    RateIsRightIff(h[..n]);
  }

  /** So over a whole run: the rate is right from the third second on if and only if the timestamps always
      say so. */
  lemma RateAlwaysRightIff(h: seq<Sample>)
    requires h != [] && Ordered(h) && First(h) >= 0 && Carries(h)
    ensures (forall n :: 0 < n <= |h| && h[n-1].timestamp >= First(h) + 2 ==> RightAfter(h, n))
            <==> (forall n :: 0 < n <= |h| && h[n-1].timestamp >= First(h) + 2 ==> SaidRightAfter(h, n))
  {
    hide Carries, Ordered, RightAfter, SaidRightAfter;
    forall n | 0 < n <= |h| ensures RightAfter(h, n) <==> SaidRightAfter(h, n) {
      RightAfterIff(h, n);
    }
  }

  /** After a gap that does not leave the buckets in their roles, such as a single idle second, two seconds
      with samples cannot follow on each other: the rate of the later one is wrong. */
  lemma GapBreaksNext(h: seq<Sample>, n: nat)
    requires 0 < n < |h| - 1 && Ordered(h) && First(h) >= 0 && Carries(h)
    requires (h[n].timestamp - h[n-1].timestamp) % 3 != 1 && h[n].timestamp > h[n-1].timestamp
    requires (forall i :: n <= i < |h| - 1 ==> h[i].timestamp == h[n].timestamp) && Now(h) == h[n].timestamp + 1
    ensures Counter(h).bitrate != BytesIn(h, Now(h) - 1)
  {
    hide Counter, BytesIn;
    RateIsRightIff(h);
    ShapeStays(h[..|h|-1], n);
  }

  /** The shape is that of the first sample of the running second. */
  lemma {:induction false} ShapeStays(h: seq<Sample>, n: nat)
    requires 0 < n < |h| && forall i :: n <= i < |h| ==> h[i].timestamp == h[n].timestamp
    requires (h[n].timestamp - h[n-1].timestamp) % 3 != 1 && h[n].timestamp > h[n-1].timestamp
    ensures !ShapeOf(h).primed || !ShapeOf(h).clean
  {
    if n < |h| - 1 {
      ShapeStays(h[..|h|-1], n);
    }
  }

  lemma BytesOfOne(x: Sample, s: int)
    ensures BytesIn([x], s) == if x.timestamp == s then x.length else 0
    ensures Counter([x]) == SaveSampleBitrate(FRESH, x.timestamp, x.length)
  {
    assert [x][..0] == [];
  }

  /** For example second 12 carried seven bytes after an idle one, but second 13 still publishes zero. */
  lemma IdleSecondBreaksRate()
    ensures var h := [Sample([], 5, 10, false), Sample([], 7, 12, true), Sample([], 9, 13, true)];
            Ordered(h) && Carries(h) && Now(h) >= First(h) + 2 && Counter(h).bitrate == 0 && BytesIn(h, Now(h) - 1) == 7
  {
    var a, b, c := Sample([], 5, 10, false), Sample([], 7, 12, true), Sample([], 9, 13, true);
    var h := [a, b, c];
    assert h[..2] == [a, b] && [a, b][..1] == [a] && [a][..0] == [];
    assert Counter([a]) == Rate(map[1 := 5], 0);
    assert Counter([a, b]) == Rate(map[1 := 0, 0 := 7], 0);
    BytesOfOne(a, 10);
    BytesOfOne(a, 12);
    assert BytesIn([a, b], 12) == 7 && BytesIn([a, b], 10) == 5;
  }

  /** And this one, with an idle second too, publishes what it should. */
  lemma IdleSecondCanBeRight()
    ensures var h := [Sample([], 5, 10, false), Sample([], 7, 12, true)];
            Ordered(h) && Carries(h) && !Gapless(h) && Counter(h).bitrate == BytesIn(h, Now(h) - 1)
  {
    var a, b := Sample([], 5, 10, false), Sample([], 7, 12, true);
    var h := [a, b];
    assert h[..1] == [a] && [a][..0] == [];
    assert Counter([a]) == Rate(map[1 := 5], 0);
    BytesOfOne(a, 10);
    BytesOfOne(a, 11);
    assert BytesIn(h, 11) == 0 && BytesIn(h, 10) == 5;
  }
}
