/** A sliding window of bandwidth estimates and the direction of its trend, by Kendall's tau. */
module Trend {

  datatype Direction = Neutral | Upward | Downward

  datatype Params = Params(requiredSamples: int, downwardTrendThreshold: real, collapseValues: bool)

  // ---- Kendall's tau --------------------------------------------------------------------------

  function CountAbove(x: int, s: seq<int>): nat {
    if s == [] then 0 else (if x < s[0] then 1 else 0) + CountAbove(x, s[1..])
  }

  function CountBelow(x: int, s: seq<int>): nat {
    if s == [] then 0 else (if x > s[0] then 1 else 0) + CountBelow(x, s[1..])
  }

  /** Pairs in ascending order. */
  function Concordant(v: seq<int>): nat {
    if v == [] then 0 else CountAbove(v[0], v[1..]) + Concordant(v[1..])
  }

  /** Pairs in descending order. */
  function Discordant(v: seq<int>): nat {
    if v == [] then 0 else CountBelow(v[0], v[1..]) + Discordant(v[1..])
  }

  function Tau(v: seq<int>): real {
    var c, d := Concordant(v), Discordant(v);
    if c + d == 0 then 0.0 else (c as real - d as real) / (c as real + d as real)
  }

  function Reverse(v: seq<int>): seq<int> {
    if v == [] then [] else Reverse(v[1..]) + [v[0]]
  }

  lemma {:induction false} CountAppend(x: int, s: seq<int>, y: int)
    ensures CountAbove(x, s + [y]) == CountAbove(x, s) + (if x < y then 1 else 0)
    ensures CountBelow(x, s + [y]) == CountBelow(x, s) + (if x > y then 1 else 0)
  {
    if s == [] {
      assert s + [y] == [y] && [y][1..] == [];
    } else {
      assert (s + [y])[1..] == s[1..] + [y];
      CountAppend(x, s[1..], y);
    }
  }

  lemma {:induction false} PairsAppend(v: seq<int>, y: int)
    ensures Concordant(v + [y]) == Concordant(v) + CountBelow(y, v)
    ensures Discordant(v + [y]) == Discordant(v) + CountAbove(y, v)
  {
    if v == [] {
      assert v + [y] == [y] && [y][1..] == [];
    } else {
      assert (v + [y])[1..] == v[1..] + [y];
      PairsAppend(v[1..], y);
      CountAppend(v[0], v[1..], y);
    }
  }

  lemma {:induction false} CountReverse(x: int, v: seq<int>)
    ensures CountAbove(x, Reverse(v)) == CountAbove(x, v)
    ensures CountBelow(x, Reverse(v)) == CountBelow(x, v)
  {
    if v != [] {
      CountReverse(x, v[1..]);
      CountAppend(x, Reverse(v[1..]), v[0]);
    }
  }

  lemma {:induction false} PairsReverse(v: seq<int>)
    ensures Concordant(Reverse(v)) == Discordant(v) && Discordant(Reverse(v)) == Concordant(v)
  {
    if v != [] {
      PairsReverse(v[1..]);
      PairsAppend(Reverse(v[1..]), v[0]);
      CountReverse(v[0], v[1..]);
    }
  }

  lemma ProductSign(x: real, k: real)
    requires k > 0.0
    ensures x > 0.0 <==> x * k > 0.0
    ensures x == 0.0 <==> x * k == 0.0
  {
  }

  lemma QuotientIs(q: real, x: real, k: real)
    requires k > 0.0 && q * k == x
    ensures x / k == q
  {
    var q' := x / k;
    assert q' * k == x;
    assert (q' - q) * k == 0.0;
    ProductSign(q' - q, k);
  }

  /** Tau of a window read backwards is its negative. */
  lemma TauReverse(v: seq<int>)
    ensures Tau(Reverse(v)) == -Tau(v)
  {
    PairsReverse(v);
    var c, d := Concordant(v), Discordant(v);
    if c + d > 0 { FractionNegates(c as real, d as real); }
  }

  lemma FractionNegates(c: real, d: real)
    requires c + d > 0.0
    ensures (d - c) / (d + c) == -((c - d) / (c + d))
  {
    var q := (c - d) / (c + d);
    assert q * (c + d) == c - d;
    assert (-q) * (d + c) == -(q * (c + d)) == d - c;
    QuotientIs(-q, d - c, d + c);
  }

  lemma FractionBounds(c: real, d: real)
    requires c >= 0.0 && d >= 0.0 && c + d > 0.0
    ensures -1.0 <= (c - d) / (c + d) <= 1.0
    ensures (c - d) / (c + d) == 1.0 <==> d == 0.0
    ensures (c - d) / (c + d) > 0.0 <==> c > d
  {
    var k := c + d;
    var q := (c - d) / k;
    assert q * k == c - d;
    assert (q - 1.0) * k == q * k - k == -2.0 * d;
    assert (-1.0 - q) * k == -k - q * k == -2.0 * c;
    ProductSign(q - 1.0, k);
    ProductSign(-1.0 - q, k);
    ProductSign(q, k);
  }

  ghost predicate NonDecreasing(v: seq<int>) {
    forall i, j :: 0 <= i < j < |v| ==> v[i] <= v[j]
  }

  ghost predicate Constant(v: seq<int>) {
    forall i, j :: 0 <= i < j < |v| ==> v[i] == v[j]
  }

  lemma {:induction false} NoneBelow(x: int, s: seq<int>)
    ensures CountBelow(x, s) == 0 <==> forall i :: 0 <= i < |s| ==> x <= s[i]
    ensures CountAbove(x, s) == 0 <==> forall i :: 0 <= i < |s| ==> x >= s[i]
  {
    if s != [] {
      NoneBelow(x, s[1..]);
      assert forall i :: 0 < i < |s| ==> s[i] == s[1..][i - 1];
    }
  }

  lemma {:induction false} DiscordantZero(v: seq<int>)
    ensures Discordant(v) == 0 <==> NonDecreasing(v)
  {
    if v != [] {
      DiscordantZero(v[1..]);
      NoneBelow(v[0], v[1..]);
      assert forall i :: 0 < i < |v| ==> v[i] == v[1..][i - 1];
      if NonDecreasing(v) { assert NonDecreasing(v[1..]); }
    }
  }

  lemma {:induction false} ConcordantZero(v: seq<int>)
    requires NonDecreasing(v)
    ensures Concordant(v) == 0 <==> Constant(v)
  {
    if v != [] {
      assert NonDecreasing(v[1..]);
      ConcordantZero(v[1..]);
      NoneBelow(v[0], v[1..]);
      assert forall i :: 0 < i < |v| ==> v[i] == v[1..][i - 1];
      if Constant(v) { assert Constant(v[1..]); }
      if Concordant(v) == 0 {
        forall i, j | 0 <= i < j < |v| ensures v[i] == v[j] {
          assert v[0] >= v[1..][j - 1];
        }
      }
    }
  }

  /** Tau lies between -1 and 1, and is 1 exactly for a window that rises without ever falling. */
  lemma TauBounds(v: seq<int>)
    ensures -1.0 <= Tau(v) <= 1.0
    ensures Tau(v) == 1.0 <==> NonDecreasing(v) && !Constant(v)
    ensures Tau(v) > 0.0 <==> Concordant(v) > Discordant(v)
  {
    var c, d := Concordant(v), Discordant(v);
    DiscordantZero(v);
    if NonDecreasing(v) { ConcordantZero(v); }
    if c + d > 0 { FractionBounds(c as real, d as real); }
  }

  // ---- the detector as a value ----------------------------------------------------------------

  datatype State = State(values: seq<int>, direction: Direction)

  const FRESH := State([], Neutral)

  function DirectionOf(p: Params, values: seq<int>): Direction {
    if |values| < p.requiredSamples then Neutral
    else if Tau(values) > 0.0 then Upward
    else if Tau(values) < p.downwardTrendThreshold then Downward
    else Neutral
  }

  function Seeded(s: State, value: int): State {
    if |s.values| != 0 then s else s.(values := [value])
  }

  function Added(p: Params, s: State, value: int): State
    requires p.requiredSamples >= 1
  {
    if p.collapseValues && |s.values| != 0 && s.values[|s.values| - 1] == value then s
    else
      var kept := if |s.values| == p.requiredSamples then s.values[1..] else s.values;
      State(kept + [value], DirectionOf(p, kept + [value]))
  }

  datatype Call = Seed(value: int) | Add(value: int)

  function Run(p: Params, calls: seq<Call>): State
    requires p.requiredSamples >= 1
  {
    if calls == [] then FRESH
    else
      var s := Run(p, calls[..|calls| - 1]);
      match calls[|calls| - 1]
      case Seed(v) => Seeded(s, v)
      case Add(v) => Added(p, s, v)
  }

  // ---- the window it stands for ---------------------------------------------------------------

  /** Does the call contribute a value after the given ones? */
  predicate Counts(p: Params, before: seq<int>, c: Call) {
    match c
    case Seed(_) => before == []
    case Add(v) => !(p.collapseValues && before != [] && before[|before| - 1] == v)
  }

  /** Everything seeded or added, without repeats of the value before if those are collapsed. */
  function History(p: Params, calls: seq<Call>): seq<int> {
    if calls == [] then []
    else
      var before := History(p, calls[..|calls| - 1]);
      if Counts(p, before, calls[|calls| - 1]) then before + [calls[|calls| - 1].value] else before
  }

  /** Some call has added a value, rather than seeded it or repeated one. */
  predicate HasAdded(p: Params, calls: seq<Call>) {
    && calls != []
    && (HasAdded(p, calls[..|calls| - 1])
        || (calls[|calls| - 1].Add? && Counts(p, History(p, calls[..|calls| - 1]), calls[|calls| - 1])))
  }

  function LastN(h: seq<int>, n: nat): seq<int> {
    if |h| <= n then h else h[|h| - n..]
  }

  /** The values are always the newest of the history, and the direction is that of these values, once
      something has been added. */
  lemma {:induction false} WindowRefinesHistory(p: Params, calls: seq<Call>)
    requires p.requiredSamples >= 1
    ensures Run(p, calls).values == LastN(History(p, calls), p.requiredSamples)
    ensures Run(p, calls).direction == if HasAdded(p, calls) then DirectionOf(p, Run(p, calls).values) else Neutral
    ensures !HasAdded(p, calls) ==> |History(p, calls)| <= 1
  {
    if calls != [] {
      var before := calls[..|calls| - 1];
      WindowRefinesHistory(p, before);
      var h := History(p, before);
      WindowAppend(h, p.requiredSamples, calls[|calls| - 1].value);
    }
  }

  lemma WindowAppend(h: seq<int>, n: nat, v: int)
    requires n >= 1
    ensures LastN(h, n) == [] <==> h == []
    ensures h != [] ==> LastN(h, n)[|LastN(h, n)| - 1] == h[|h| - 1]
    ensures LastN(h + [v], n) == (if |LastN(h, n)| == n then LastN(h, n)[1..] else LastN(h, n)) + [v]
  {
  }

  /** The one case in which the direction is not that of the window: a detector for a single sample with a
      positive threshold that has only been seeded. */
  lemma DirectionFollowsWindowIff(p: Params, calls: seq<Call>)
    requires p.requiredSamples >= 1
    ensures Run(p, calls).direction == DirectionOf(p, Run(p, calls).values)
            <==> !(p.requiredSamples == 1 && p.downwardTrendThreshold > 0.0
                   && History(p, calls) != [] && !HasAdded(p, calls))
  {
    WindowRefinesHistory(p, calls);
    var v := Run(p, calls).values;
    if |v| == 1 {
      assert v[1..] == [];
      assert Concordant(v) == CountAbove(v[0], []) + Concordant([]) == 0;
      assert Discordant(v) == CountBelow(v[0], []) + Discordant([]) == 0;
      assert Tau(v) == 0.0;
    }
  }

  // ---- which way a direction points -----------------------------------------------------------

  /** Positions of a window of which the later one holds the larger value. */
  function Ascents(v: seq<int>): set<(nat, nat)> {
    set i: nat, j: nat | i < j < |v| && v[i] < v[j] :: (i, j)
  }

  /** And of which the later one holds the smaller value. */
  function Descents(v: seq<int>): set<(nat, nat)> {
    set i: nat, j: nat | i < j < |v| && v[i] > v[j] :: (i, j)
  }

  /** Positions of values that are larger, or smaller, than x. */
  function Above(x: int, v: seq<int>): set<nat> {
    set i: nat | i < |v| && v[i] > x
  }

  function Below(x: int, v: seq<int>): set<nat> {
    set i: nat | i < |v| && v[i] < x
  }

  lemma LastPosition(x: int, front: seq<int>, y: int)
    ensures Above(x, front + [y]) == Above(x, front) + if x < y then {|front|} else {}
    ensures Below(x, front + [y]) == Below(x, front) + if x > y then {|front|} else {}
    ensures |front| !in Above(x, front) && |front| !in Below(x, front)
  {
  }

  lemma {:induction false} CountsAreSizes(x: int, v: seq<int>)
    ensures CountAbove(x, v) == |Above(x, v)| && CountBelow(x, v) == |Below(x, v)|
  {
    if v != [] {
      hide Above, Below;
      var front, y := v[..|v| - 1], v[|v| - 1];
      CountsAreSizes(x, front);
      assert v == front + [y];
      CountAppend(x, front, y);
      LastPosition(x, front, y);
    } else {
      assert Above(x, v) == {} && Below(x, v) == {};
    }
  }

  function PairedWith(js: set<nat>, n: nat): set<(nat, nat)> {
    set i | i in js :: (i, n)
  }

  lemma {:induction false} PairedSize(js: set<nat>, n: nat)
    ensures |PairedWith(js, n)| == |js|
  {
    if js != {} {
      var i :| i in js;
      PairedSize(js - {i}, n);
      assert PairedWith(js, n) == PairedWith(js - {i}, n) + {(i, n)};
    }
  }

  /** A new last value ascends from the smaller ones before it, and descends from the larger ones. */
  lemma PairsOfLast(front: seq<int>, y: int)
    ensures Ascents(front + [y]) == Ascents(front) + PairedWith(Below(y, front), |front|)
    ensures Descents(front + [y]) == Descents(front) + PairedWith(Above(y, front), |front|)
    ensures Ascents(front) !! PairedWith(Below(y, front), |front|)
    ensures Descents(front) !! PairedWith(Above(y, front), |front|)
  {
  }

  lemma {:induction false} PairsAreSizes(v: seq<int>)
    ensures Concordant(v) == |Ascents(v)| && Discordant(v) == |Descents(v)|
  {
    if v != [] {
      var front, y := v[..|v| - 1], v[|v| - 1];
      assert v == front + [y];
      hide Ascents, Descents, Above, Below;
      PairsAreSizes(front);
      PairsAppend(front, y);
      CountsAreSizes(y, front);
      PairedSize(Below(y, front), |front|);
      PairedSize(Above(y, front), |front|);
      PairsOfLast(front, y);
    } else {
      assert Ascents(v) == {} && Descents(v) == {};
    }
  }

  /** The newest values that a detector looks at. */
  function Newest(p: Params, calls: seq<Call>): seq<int>
    requires p.requiredSamples >= 1
  {
    LastN(History(p, calls), p.requiredSamples)
  }

  /** There are enough of them, and something has been added. */
  predicate Decided(p: Params, calls: seq<Call>) {
    HasAdded(p, calls) && |History(p, calls)| >= p.requiredSamples
  }

  /** Ascending less descending pairs are below the threshold times their sum; without any, the threshold
      is positive. */
  predicate FallsBelow(p: Params, up: nat, down: nat) {
    if up + down == 0 then p.downwardTrendThreshold > 0.0
    else up as real - down as real < p.downwardTrendThreshold * (up as real + down as real)
  }

  /** After any calls the direction points up exactly if the newest values, as many as are required, have
      more ascending than descending pairs, and down exactly if they have not and fall below the threshold. */
  lemma DirectionIff(p: Params, calls: seq<Call>)
    requires p.requiredSamples >= 1
    ensures var v, d := Newest(p, calls), Run(p, calls).direction;
      && (d == Upward <==> Decided(p, calls) && |Ascents(v)| > |Descents(v)|)
      && (d == Downward
          <==> && Decided(p, calls) && |Ascents(v)| <= |Descents(v)| && FallsBelow(p, |Ascents(v)|, |Descents(v)|))
  {
    hide Run, History, HasAdded, Ascents, Descents;
    WindowRefinesHistory(p, calls);
    var v := Newest(p, calls);
    TauIs(v, p.downwardTrendThreshold);
  }

  lemma TauIs(v: seq<int>, threshold: real)
    ensures Tau(v) > 0.0 <==> |Ascents(v)| > |Descents(v)|
    ensures var up, down := |Ascents(v)|, |Descents(v)|;
            Tau(v) < threshold <==> if up + down == 0 then threshold > 0.0
                                    else up as real - down as real < threshold * (up as real + down as real)
  {
    hide Ascents, Descents, Concordant, Discordant;
    PairsAreSizes(v);
    TauBounds(v);
    var c, d := Concordant(v), Discordant(v);
    if c + d > 0 { FractionBelow(c as real, d as real, threshold); }
  }

  lemma FractionBelow(c: real, d: real, threshold: real)
    requires c + d > 0.0
    ensures (c - d) / (c + d) < threshold <==> c - d < threshold * (c + d)
  {
    var k, q := c + d, (c - d) / (c + d);
    assert q * k == c - d;
    assert (threshold - q) * k == threshold * k - (c - d);
    ProductSign(threshold - q, k);
  }

  ghost predicate NonIncreasing(v: seq<int>) {
    forall i, j :: 0 <= i < j < |v| ==> v[i] >= v[j]
  }

  lemma SomePair(v: seq<int>)
    requires !Constant(v)
    ensures NonDecreasing(v) ==> |Descents(v)| == 0 && |Ascents(v)| > 0
    ensures NonIncreasing(v) ==> |Ascents(v)| == 0 && |Descents(v)| > 0
  {
    var i: nat, j: nat :| i < j < |v| && v[i] != v[j];
    assert (i, j) in Ascents(v) + Descents(v);
    if NonDecreasing(v) { assert Descents(v) == {} && (i, j) in Ascents(v); }
    if NonIncreasing(v) { assert Ascents(v) == {} && (i, j) in Descents(v); }
  }

  /** Values that never fall and are not all the same point up; values that never rise point down, for
      every threshold above -1. */
  lemma SteadyWindows(p: Params, calls: seq<Call>)
    requires p.requiredSamples >= 1 && Decided(p, calls) && !Constant(Newest(p, calls))
    ensures NonDecreasing(Newest(p, calls)) ==> Run(p, calls).direction == Upward
    ensures NonIncreasing(Newest(p, calls)) && p.downwardTrendThreshold > -1.0 ==> Run(p, calls).direction == Downward
  {
    hide Run, Ascents, Descents, Decided, Newest;
    var v := Newest(p, calls);
    DirectionIff(p, calls);
    SomePair(v);
    if NonIncreasing(v) && p.downwardTrendThreshold > -1.0 {
      var down, above := |Descents(v)| as real, p.downwardTrendThreshold + 1.0;
      ProductSign(above, down);
      assert above * down == p.downwardTrendThreshold * down + down;
    }
  }

  ghost predicate Distinct(v: seq<int>) {
    forall i, j :: 0 <= i < j < |v| ==> v[i] != v[j]
  }

  lemma {:induction false} OthersAboveOrBelow(x: int, s: seq<int>)
    requires forall i :: 0 <= i < |s| ==> s[i] != x
    ensures CountAbove(x, s) + CountBelow(x, s) == |s|
  {
    if s != [] {
      assert forall i :: 0 <= i < |s[1..]| ==> s[1..][i] == s[i + 1];
      OthersAboveOrBelow(x, s[1..]);
    }
  }

  /** Distinct values have as many pairs as there are. */
  lemma {:induction false} DistinctPairs(v: seq<int>)
    requires Distinct(v)
    ensures 2 * (Concordant(v) + Discordant(v)) == |v| * (|v| - 1)
  {
    if v != [] {
      assert Distinct(v[1..]);
      DistinctPairs(v[1..]);
      OthersAboveOrBelow(v[0], v[1..]);
      OneMoreRow(|v|);
    }
  }

  lemma OneMoreRow(n: int)
    ensures n * (n - 1) == (n - 1) * (n - 2) + 2 * (n - 1)
  {
  }

  // ---- the detector as an object --------------------------------------------------------------

  method KendallsTau(values: seq<int>) returns (tau: real)
    ensures tau == Tau(values)
  {
    var concordantPairs, discordantPairs := 0, 0;
    var i := 0;
    while i < |values| - 1
      invariant 0 <= i <= |values|
      invariant concordantPairs + Concordant(values[i..]) == Concordant(values)
      invariant discordantPairs + Discordant(values[i..]) == Discordant(values)
      invariant concordantPairs >= 0 && discordantPairs >= 0
    {
      var concordantRow, discordantRow := CountRow(values, i);
      concordantPairs := concordantPairs + concordantRow;
      discordantPairs := discordantPairs + discordantRow;
      assert values[i..][0] == values[i] && values[i..][1..] == values[i + 1..];
      i := i + 1;
    }
    if i < |values| {
      assert values[i..] == [values[i]] && [values[i]][1..] == [];
    }
    if concordantPairs + discordantPairs == 0 {
      return 0.0;
    }
    tau := (concordantPairs as real - discordantPairs as real) / (concordantPairs as real + discordantPairs as real);
  }

  /** The inner loop: value i against all after it. */
  method CountRow(values: seq<int>, i: nat) returns (above: nat, below: nat)
    requires i < |values|
    ensures above == CountAbove(values[i], values[i + 1..])
    ensures below == CountBelow(values[i], values[i + 1..])
  {
    above, below := 0, 0;
    var j := i + 1;
    while j < |values|
      invariant i < j <= |values|
      invariant above + CountAbove(values[i], values[j..]) == CountAbove(values[i], values[i + 1..])
      invariant below + CountBelow(values[i], values[j..]) == CountBelow(values[i], values[i + 1..])
    {
      assert values[j..][0] == values[j] && values[j..][1..] == values[j + 1..];
      if values[i] < values[j] {
        above := above + 1;
      } else if values[i] > values[j] {
        below := below + 1;
      }
      j := j + 1;
    }
  }

  class TrendDetector {
    const params: Params
    var numSamples: nat
    var values: seq<int>
    var lowestValue: int
    var highestValue: int
    var direction: Direction

    function View(): State
      reads this
    {
      State(values, direction)
    }

    constructor (params: Params)
      ensures this.params == params && View() == FRESH
    {
      this.params := params;
      numSamples, values, lowestValue, highestValue, direction := 0, [], 0, 0, Neutral;
    }

    method Seed(value: int)
      modifies this`values
      ensures View() == Seeded(old(View()), value)
    {
      if |values| != 0 {
        return;
      }
      values := [value];
    }

    /** With no required samples the window would be cut although it is empty. */
    method AddValue(value: int)
      requires params.requiredSamples >= 1
      modifies this
      ensures View() == Added(params, old(View()), value)
      ensures numSamples == old(numSamples) + 1
      ensures lowestValue == if old(lowestValue) == 0 || value < old(lowestValue) then value else old(lowestValue)
      ensures highestValue == if value > old(highestValue) then value else old(highestValue)
    {
      numSamples := numSamples + 1;
      if lowestValue == 0 || value < lowestValue {
        lowestValue := value;
      }
      if value > highestValue {
        highestValue := value;
      }
      if params.collapseValues && |values| != 0 && values[|values| - 1] == value {
        return;
      }
      if |values| == params.requiredSamples {
        values := values[1..];
      }
      values := values + [value];
      UpdateDirection();
    }

    method UpdateDirection()
      modifies this`direction
      ensures direction == DirectionOf(params, values)
    {
      if |values| < params.requiredSamples {
        direction := Neutral;
        return;
      }
      var kt := KendallsTau(values);
      direction := Neutral;
      if kt > 0.0 {
        direction := Upward;
      } else if kt < params.downwardTrendThreshold {
        direction := Downward;
      }
    }
  }
}
