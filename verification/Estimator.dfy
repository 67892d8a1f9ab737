/** The bandwidth estimator's loop: when it tries to switch the video down or up. Every reading of the
    clock is an input of its own. */
module Estimator {
  import opened Options
  import Trend

  type Time = int       // nanoseconds

  type Duration = int

  const MAX_DURATION: Duration := 0x7FFF_FFFF_FFFF_FFFF

  /** The zero time lies so far back that a duration since it saturates. */
  datatype Stamp = Never | At(time: Time)

  function Since(now: Time, s: Stamp): Duration {
    match s
    case Never => MAX_DURATION
    case At(t) => if now - t > MAX_DURATION then MAX_DURATION else now - t
  }

  datatype Config = Config(
    passive: bool,
    stableDuration: Duration,
    unstableDuration: Duration,
    stalledDuration: Duration,
    downgradeBackoff: Duration,
    upgradeBackoff: Duration,
    diffThreshold: real)

  /** The readings of the clock that one tick can make, in the order of the code. */
  datatype Clock = Clock(resetStalled: Time, checkStalled: Time, branch: Time, backoff: Time, duration: Time,
                         stamp: Time)

  /** One tick of the reader. `active`: automatic mode is on, the video neither disabled nor paused.
      `streamBitrate` is absent while the track has no stream. */
  datatype Tick = Tick(targetBitrate: int, closed: bool, active: bool, streamBitrate: Option<nat>, clock: Clock)

  datatype State = State(
    trend: Trend.State,
    stableSince: Stamp,
    unstableSince: Stamp,
    stalledSince: Stamp,
    lastUpgradeTime: Stamp,
    lastDowngradeTime: Stamp)

  /** What a tick attempts; an attempt counts whether or not the switch then works. */
  datatype Action = Nothing | Downgrade | Upgrade

  function Initial(start: Time): State {
    State(Trend.FRESH, At(start), Never, Never, Never, Never)
  }

  const TREND_PARAMS := Trend.Params(8, -0.5, true)

  function Step(conf: Config, s: State, t: Tick): (State, Action) {
    if !t.active || conf.passive then (s, Nothing)
    else
      var s1 := s.(trend := Trend.Added(TREND_PARAMS, s.trend, t.targetBitrate));
      if t.streamBitrate.None? || t.streamBitrate.value == 0 then (s1, Nothing)
      else Decide(conf, s1, t.targetBitrate as real / t.streamBitrate.value as real, t.clock)
  }

  function Decide(conf: Config, s: State, diff: real, c: Clock): (State, Action) {
    var direction := s.trend.direction;
    var s1 := if direction != Trend.Neutral || diff > 1.0 + conf.diffThreshold
              then s.(stalledSince := At(c.resetStalled)) else s;
    var stalled := direction == Trend.Neutral && Since(c.checkStalled, s1.stalledSince) > conf.stalledDuration;
    if direction == Trend.Downward || stalled then Congested(conf, s1, diff, c) else Stable(conf, s1, diff, c)
  }

  function Congested(conf: Config, s: State, diff: real, c: Clock): (State, Action) {
    var s1 := s.(stableSince := At(c.branch));
    if Since(c.backoff, s.lastDowngradeTime) < conf.downgradeBackoff then (s1, Nothing)
    else if Since(c.duration, s.unstableSince) < conf.unstableDuration then (s1, Nothing)
    else if conf.diffThreshold >= 0.0 && diff > 1.0 + conf.diffThreshold then (s1, Nothing)
    else (s1.(lastDowngradeTime := At(c.stamp)), Downgrade)
  }

  function Stable(conf: Config, s: State, diff: real, c: Clock): (State, Action) {
    var s1 := s.(unstableSince := At(c.branch));
    if Since(c.backoff, s.lastUpgradeTime) < conf.upgradeBackoff then (s1, Nothing)
    else if Since(c.duration, s.stableSince) < conf.stableDuration then (s1, Nothing)
    else if conf.diffThreshold >= 0.0 && diff < 1.0 + conf.diffThreshold then (s1, Nothing)
    else (s1.(lastUpgradeTime := At(c.stamp)), Upgrade)
  }

  // ---- runs -----------------------------------------------------------------------------------

  function After(conf: Config, start: Time, ticks: seq<Tick>, n: nat): State
    requires n <= |ticks|
  {
    if n == 0 then Initial(start) else Step(conf, After(conf, start, ticks, n - 1), ticks[n - 1]).0
  }

  function ActionAt(conf: Config, start: Time, ticks: seq<Tick>, n: nat): Action
    requires n < |ticks|
  {
    Step(conf, After(conf, start, ticks, n), ticks[n]).1
  }

  predicate InOrder(c: Clock) {
    c.resetStalled <= c.checkStalled <= c.branch <= c.backoff <= c.duration <= c.stamp
  }

  /** The clock does not run backwards, within a tick or from one tick to a later one. */
  ghost predicate Monotone(ticks: seq<Tick>) {
    && (forall i :: 0 <= i < |ticks| ==> InOrder(ticks[i].clock))
    && (forall i, j :: 0 <= i < j < |ticks| ==> ticks[i].clock.stamp <= ticks[j].clock.resetStalled)
  }

  predicate NotBefore(s: Stamp, t: Time) {
    s.At? && s.time >= t
  }

  /** What a tick that attempts a switch has read from the clock and from the state. */
  lemma AttemptReads(conf: Config, s: State, t: Tick)
    ensures var (s', a) := Step(conf, s, t); var c := t.clock;
      && (a == Downgrade ==>
            && Since(c.backoff, s.lastDowngradeTime) >= conf.downgradeBackoff
            && Since(c.duration, s.unstableSince) >= conf.unstableDuration
            && s'.stableSince == At(c.branch) && s'.lastDowngradeTime == At(c.stamp))
      && (a == Upgrade ==>
            && Since(c.backoff, s.lastUpgradeTime) >= conf.upgradeBackoff
            && Since(c.duration, s.stableSince) >= conf.stableDuration
            && s'.unstableSince == At(c.branch) && s'.lastUpgradeTime == At(c.stamp))
  {
  }

  /** The four stamps that switching depends on only move forward. */
  lemma StampsMoveForward(conf: Config, s: State, t: Tick, past: Time)
    requires InOrder(t.clock) && past <= t.clock.resetStalled
    ensures var s' := Step(conf, s, t).0;
      && (NotBefore(s.stableSince, past) ==> NotBefore(s'.stableSince, past))
      && (NotBefore(s.unstableSince, past) ==> NotBefore(s'.unstableSince, past))
      && (NotBefore(s.lastUpgradeTime, past) ==> NotBefore(s'.lastUpgradeTime, past))
      && (NotBefore(s.lastDowngradeTime, past) ==> NotBefore(s'.lastDowngradeTime, past))
  {
  }

  /** After an attempt in tick i the stamps it set still bind in every later tick. */
  lemma {:induction false} AttemptBinds(conf: Config, start: Time, ticks: seq<Tick>, i: nat, n: nat)
    requires Monotone(ticks) && i < n <= |ticks|
    ensures var s := After(conf, start, ticks, n); var c := ticks[i].clock;
      && (ActionAt(conf, start, ticks, i) == Downgrade ==>
            NotBefore(s.lastDowngradeTime, c.stamp) && NotBefore(s.stableSince, c.branch))
      && (ActionAt(conf, start, ticks, i) == Upgrade ==>
            NotBefore(s.lastUpgradeTime, c.stamp) && NotBefore(s.unstableSince, c.branch))
  {
    var m, c := n - 1, ticks[i].clock;
    assert InOrder(c);
    if m == i {
      AttemptReads(conf, After(conf, start, ticks, i), ticks[i]);
    } else {
      hide Step;
      AttemptBinds(conf, start, ticks, i, m);
      StampsMoveForward(conf, After(conf, start, ticks, m), ticks[m], c.stamp);
      StampsMoveForward(conf, After(conf, start, ticks, m), ticks[m], c.branch);
    }
  }

  /** How long after `a` in tick i the code waits before it attempts `b`. */
  function Gap(conf: Config, a: Action, b: Action): Duration
    requires a != Nothing && b != Nothing
  {
    if a == Downgrade then (if b == Downgrade then conf.downgradeBackoff else conf.stableDuration)
    else (if b == Upgrade then conf.upgradeBackoff else conf.unstableDuration)
  }

  /** No flapping: any two attempts, next to each other or not, are apart by the configured time. Between
      two of the same kind it counts from when the first was done; otherwise from when it was decided. */
  lemma NoFlapping(conf: Config, start: Time, ticks: seq<Tick>, i: nat, j: nat)
    requires Monotone(ticks) && i < j < |ticks|
    requires ActionAt(conf, start, ticks, i) != Nothing && ActionAt(conf, start, ticks, j) != Nothing
    ensures var a, b := ActionAt(conf, start, ticks, i), ActionAt(conf, start, ticks, j);
            ticks[j].clock.duration
            >= (if a == b then ticks[i].clock.stamp else ticks[i].clock.branch) + Gap(conf, a, b)
  {
    hide Step;
    AttemptBinds(conf, start, ticks, i, j);
    AttemptReads(conf, After(conf, start, ticks, j), ticks[j]);
    assert InOrder(ticks[j].clock);
  }

  // ---- how many attempts fit into a window ----------------------------------------------------

  /** The positions, in order, of attempts whose decisions all fall into the window from `from` on. */
  ghost predicate AttemptsWithin(conf: Config, start: Time, ticks: seq<Tick>, at: seq<nat>, from: Time,
                                 length: Duration) {
    && (forall k :: 0 <= k < |at| ==> at[k] < |ticks| && ActionAt(conf, start, ticks, at[k]) != Nothing
                                      && from <= ticks[at[k]].clock.duration <= from + length)
    && (forall k, l :: 0 <= k < l < |at| ==> at[k] < at[l])
  }

  /** No tick takes longer than `delay` from choosing its branch to its last check. */
  ghost predicate Prompt(ticks: seq<Tick>, delay: Duration) {
    forall i :: 0 <= i < |ticks| ==> ticks[i].clock.duration - ticks[i].clock.branch <= delay
  }

  ghost predicate AtLeast(conf: Config, least: Duration) {
    && least <= conf.downgradeBackoff && least <= conf.upgradeBackoff
    && least <= conf.stableDuration && least <= conf.unstableDuration
  }

  lemma AttemptsApart(conf: Config, start: Time, ticks: seq<Tick>, i: nat, j: nat, least: Duration, delay: Duration)
    requires Monotone(ticks) && i < j < |ticks| && AtLeast(conf, least) && Prompt(ticks, delay)
    requires ActionAt(conf, start, ticks, i) != Nothing && ActionAt(conf, start, ticks, j) != Nothing
    ensures ticks[j].clock.duration >= ticks[i].clock.duration + (least - delay)
  {
    hide Step;
    NoFlapping(conf, start, ticks, i, j);
    assert InOrder(ticks[i].clock);
  }

  lemma {:induction false} AttemptsSpread(conf: Config, start: Time, ticks: seq<Tick>, at: seq<nat>, from: Time,
                                          length: Duration, least: Duration, delay: Duration)
    requires Monotone(ticks) && AttemptsWithin(conf, start, ticks, at, from, length) && AtLeast(conf, least)
             && Prompt(ticks, delay)
    requires |at| > 0
    ensures (|at| - 1) * (least - delay) <= ticks[at[|at| - 1]].clock.duration - ticks[at[0]].clock.duration
  {
    hide Monotone, AtLeast, Prompt, ActionAt;
    if |at| > 1 {
      var before := at[..|at| - 1];
      AttemptsSpread(conf, start, ticks, before, from, length, least, delay);
      AttemptsApart(conf, start, ticks, at[|at| - 2], at[|at| - 1], least, delay);
      OneMore(|at| - 1, least - delay);
    }
  }

  lemma OneMore(n: int, d: int)
    ensures n * d == (n - 1) * d + d
  {
  }

  /** So a window of a given length holds at most length / (least - delay) + 1 attempts, where `least` is
      the least configured wait; `delay` is zero if a tick decides in an instant. */
  lemma FewAttemptsInWindow(conf: Config, start: Time, ticks: seq<Tick>, at: seq<nat>, from: Time, length: Duration,
                            least: Duration, delay: Duration)
    requires Monotone(ticks) && AttemptsWithin(conf, start, ticks, at, from, length) && AtLeast(conf, least)
             && Prompt(ticks, delay)
    requires least > delay && length >= 0
    ensures |at| <= length / (least - delay) + 1
  {
    if |at| > 0 {
      AttemptsSpread(conf, start, ticks, at, from, length, least, delay);
      DivisionBound(|at| - 1, least - delay, length);
    }
  }

  lemma DivisionBound(n: int, d: int, length: int)
    requires d > 0 && n * d <= length
    ensures n <= length / d
  {
    var x := n - length / d - 1;
    assert length < (length / d + 1) * d;
    assert x * d == n * d - (length / d + 1) * d;
    NegativeFactor(x, d);
  }

  lemma NegativeFactor(x: int, d: int)
    requires d > 0 && x * d < 0
    ensures x < 0
  {
  }

  /** The first downgrade need not wait for anything: with no stamp yet, one neutral tick that cannot
      accommodate the stream already counts as stalled. */
  lemma FirstDowngradeIsImmediate(conf: Config, start: Time, t: Tick)
    requires !conf.passive && t.active && t.streamBitrate.Some? && t.targetBitrate >= 0
    requires t.streamBitrate.value > 0
             && t.targetBitrate as real / t.streamBitrate.value as real <= 1.0 + conf.diffThreshold
    requires conf.stalledDuration < MAX_DURATION && conf.downgradeBackoff <= MAX_DURATION
             && conf.unstableDuration <= MAX_DURATION
    ensures ActionAt(conf, start, [t], 0) == Downgrade
  {
  }

  // ---- attempts do come -----------------------------------------------------------------------

  function Observed(s: State, t: Tick): State {
    s.(trend := Trend.Added(TREND_PARAMS, s.trend, t.targetBitrate))
  }

  /** The estimated bitrate in relation to the stream's. */
  function Diff(t: Tick): real
    requires t.streamBitrate.Some? && t.streamBitrate.value != 0
  {
    t.targetBitrate as real / t.streamBitrate.value as real
  }

  /** Stalling counts from here, unless the connection is neutral and cannot accommodate the stream. */
  function Refreshed(conf: Config, s: State, diff: real, c: Clock): State {
    if s.trend.direction != Trend.Neutral || diff > 1.0 + conf.diffThreshold
    then s.(stalledSince := At(c.resetStalled)) else s
  }

  predicate Congests(conf: Config, s: State, diff: real, c: Clock) {
    || s.trend.direction == Trend.Downward
    || (s.trend.direction == Trend.Neutral
        && Since(c.checkStalled, Refreshed(conf, s, diff, c).stalledSince) > conf.stalledDuration)
  }

  /** The tick gets as far as choosing its branch. */
  predicate Decides(conf: Config, t: Tick) {
    t.active && !conf.passive && t.streamBitrate.Some? && t.streamBitrate.value != 0
  }

  /** The estimate does not, or does, leave room beyond the current stream. */
  predicate Tight(conf: Config, t: Tick) {
    Decides(conf, t) && (conf.diffThreshold < 0.0 || Diff(t) <= 1.0 + conf.diffThreshold)
  }

  predicate Roomy(conf: Config, t: Tick) {
    Decides(conf, t) && (conf.diffThreshold < 0.0 || Diff(t) >= 1.0 + conf.diffThreshold)
  }

  lemma StepIs(conf: Config, s: State, t: Tick)
    requires Decides(conf, t)
    ensures var s1 := Observed(s, t); var s2 := Refreshed(conf, s1, Diff(t), t.clock);
            Step(conf, s, t) == if Congests(conf, s1, Diff(t), t.clock) then Congested(conf, s2, Diff(t), t.clock)
                                else Stable(conf, s2, Diff(t), t.clock)
  {
  }

  /** The estimates that the detector has got before tick n. */
  function Estimates(conf: Config, ticks: seq<Tick>, n: nat): seq<Trend.Call>
    requires n <= |ticks|
  {
    if n == 0 then []
    else
      var before, t := Estimates(conf, ticks, n - 1), ticks[n - 1];
      if t.active && !conf.passive then before + [Trend.Add(t.targetBitrate)] else before
  }

  /** The trend of the estimates up to tick n. */
  function DirectionAt(conf: Config, ticks: seq<Tick>, n: nat): Trend.Direction
    requires n < |ticks|
  {
    Trend.Run(TREND_PARAMS, Estimates(conf, ticks, n + 1)).direction
  }

  /** The tick finds the connection not neutral, or with room: stalling would count from here. */
  ghost predicate Resets(conf: Config, ticks: seq<Tick>, n: nat)
    requires n < |ticks|
  {
    Decides(conf, ticks[n])
    && (DirectionAt(conf, ticks, n) != Trend.Neutral || Diff(ticks[n]) > 1.0 + conf.diffThreshold)
  }

  /** The last tick up to n that resets is m. */
  ghost predicate LastResetIs(conf: Config, ticks: seq<Tick>, n: nat, m: nat)
    requires n < |ticks|
  {
    m <= n && Resets(conf, ticks, m) && forall k :: m < k <= n ==> !Resets(conf, ticks, k)
  }

  /** More than StalledDuration has passed since the last tick that resets, or there is none and the
      duration is not the longest there is. */
  ghost predicate StalledAt(conf: Config, ticks: seq<Tick>, n: nat)
    requires n < |ticks|
  {
    && conf.stalledDuration < MAX_DURATION
    && forall m: nat :: LastResetIs(conf, ticks, n, m) ==>
         ticks[n].clock.checkStalled - ticks[m].clock.resetStalled > conf.stalledDuration
  }

  /** The tick decides and finds a downward trend or a stall. */
  ghost predicate CongestedAt(conf: Config, ticks: seq<Tick>, n: nat)
    requires n < |ticks|
  {
    && Decides(conf, ticks[n])
    && (DirectionAt(conf, ticks, n) == Trend.Downward
        || (DirectionAt(conf, ticks, n) == Trend.Neutral && StalledAt(conf, ticks, n)))
  }

  ghost predicate StableAt(conf: Config, ticks: seq<Tick>, n: nat)
    requires n < |ticks|
  {
    Decides(conf, ticks[n]) && !CongestedAt(conf, ticks, n)
  }

  lemma {:induction false} TrendIsRun(conf: Config, start: Time, ticks: seq<Tick>, n: nat)
    requires n <= |ticks|
    ensures After(conf, start, ticks, n).trend == Trend.Run(TREND_PARAMS, Estimates(conf, ticks, n))
  {
    if n > 0 {
      TrendIsRun(conf, start, ticks, n - 1);
      TrendAfter(conf, After(conf, start, ticks, n - 1), ticks[n - 1]);
      var before, c := Estimates(conf, ticks, n - 1), Trend.Add(ticks[n - 1].targetBitrate);
      assert (before + [c])[..|before|] == before;
    }
  }

  lemma TrendAfter(conf: Config, s: State, t: Tick)
    ensures Step(conf, s, t).0.trend == if t.active && !conf.passive then Observed(s, t).trend else s.trend
  {
  }

  lemma ObservedIsTrend(conf: Config, start: Time, ticks: seq<Tick>, n: nat)
    requires n < |ticks| && Decides(conf, ticks[n])
    ensures Observed(After(conf, start, ticks, n), ticks[n]).trend.direction == DirectionAt(conf, ticks, n)
  {
    hide Step;
    TrendIsRun(conf, start, ticks, n + 1);
    TrendAfter(conf, After(conf, start, ticks, n), ticks[n]);
  }

  lemma StalledSinceAfter(conf: Config, s: State, t: Tick)
    ensures Step(conf, s, t).0.stalledSince
            == if Decides(conf, t)
                  && (Observed(s, t).trend.direction != Trend.Neutral || Diff(t) > 1.0 + conf.diffThreshold)
               then At(t.clock.resetStalled) else s.stalledSince
  {
  }

  lemma StalledStep(conf: Config, start: Time, ticks: seq<Tick>, n: nat)
    requires n < |ticks|
    ensures After(conf, start, ticks, n + 1).stalledSince
            == if Resets(conf, ticks, n) then At(ticks[n].clock.resetStalled)
               else After(conf, start, ticks, n).stalledSince
  {
    hide Step, Diff, DirectionAt;
    StalledSinceAfter(conf, After(conf, start, ticks, n), ticks[n]);
    if Decides(conf, ticks[n]) { ObservedIsTrend(conf, start, ticks, n); }
  }

  /** Stalling counts from the last tick up to n that resets it, and from nowhere if none does. */
  ghost predicate CountsFrom(conf: Config, ticks: seq<Tick>, n: nat, s: Stamp)
    requires n < |ticks|
  {
    match s
    case Never => forall m :: 0 <= m <= n ==> !Resets(conf, ticks, m)
    case At(x) => exists m: nat :: LastResetIs(conf, ticks, n, m) && ticks[m].clock.resetStalled == x
  }

  lemma CountsFromStep(conf: Config, ticks: seq<Tick>, n: nat, s: Stamp)
    requires 0 < n < |ticks| && CountsFrom(conf, ticks, n - 1, s)
    ensures CountsFrom(conf, ticks, n, if Resets(conf, ticks, n) then At(ticks[n].clock.resetStalled) else s)
  {
    hide Resets;
    if Resets(conf, ticks, n) {
      assert LastResetIs(conf, ticks, n, n);
    } else if x :| s == At(x) {
      var m: nat :| LastResetIs(conf, ticks, n - 1, m) && ticks[m].clock.resetStalled == x;
      assert LastResetIs(conf, ticks, n, m);
    }
  }

  lemma CountsFromFirst(conf: Config, ticks: seq<Tick>)
    requires |ticks| > 0
    ensures CountsFrom(conf, ticks, 0, if Resets(conf, ticks, 0) then At(ticks[0].clock.resetStalled) else Never)
  {
    hide Resets;
    assert Resets(conf, ticks, 0) ==> LastResetIs(conf, ticks, 0, 0);
  }

  lemma {:induction false} StalledSinceLastReset(conf: Config, start: Time, ticks: seq<Tick>, n: nat)
    requires n < |ticks|
    ensures CountsFrom(conf, ticks, n, After(conf, start, ticks, n + 1).stalledSince)
  {
    hide Step, Resets, CountsFrom;
    StalledStep(conf, start, ticks, n);
    if n == 0 {
      CountsFromFirst(conf, ticks);
    } else {
      hide After;
      StalledSinceLastReset(conf, start, ticks, n - 1);
      CountsFromStep(conf, ticks, n, After(conf, start, ticks, n).stalledSince);
    }
  }

  /** What makes the loop take its first branch. */
  lemma CongestsIs(conf: Config, start: Time, ticks: seq<Tick>, n: nat)
    requires n < |ticks| && Decides(conf, ticks[n])
    ensures Congests(conf, Observed(After(conf, start, ticks, n), ticks[n]), Diff(ticks[n]), ticks[n].clock)
            <==> CongestedAt(conf, ticks, n)
  {
    hide Step, Diff, DirectionAt, Resets;
    var s, t := After(conf, start, ticks, n), ticks[n];
    StalledSinceLastReset(conf, start, ticks, n);
    StalledSinceAfter(conf, s, t);
    ObservedIsTrend(conf, start, ticks, n);
    if x :| After(conf, start, ticks, n + 1).stalledSince == At(x) {
      var m: nat :| LastResetIs(conf, ticks, n, m) && ticks[m].clock.resetStalled == x;
      assert forall k: nat :: LastResetIs(conf, ticks, n, k) ==> k == m;
    }
  }

  predicate IsPast(s: Stamp, t: Time) {
    s.At? ==> s.time <= t
  }

  lemma {:induction false} StampsArePast(conf: Config, start: Time, ticks: seq<Tick>, n: nat)
    requires Monotone(ticks) && n < |ticks| && start <= ticks[0].clock.resetStalled
    ensures var s := After(conf, start, ticks, n);
            IsPast(s.stableSince, ticks[n].clock.resetStalled) && IsPast(s.unstableSince, ticks[n].clock.resetStalled)
  {
    if n > 0 {
      StampsArePast(conf, start, ticks, n - 1);
      assert InOrder(ticks[n - 1].clock);
      assert ticks[n - 1].clock.stamp <= ticks[n].clock.resetStalled;
      StampsStayPast(conf, After(conf, start, ticks, n - 1), ticks[n - 1], ticks[n].clock.resetStalled);
    }
  }

  lemma StampsStayPast(conf: Config, s: State, t: Tick, later: Time)
    requires IsPast(s.stableSince, later) && IsPast(s.unstableSince, later) && InOrder(t.clock)
             && t.clock.stamp <= later
    ensures IsPast(Step(conf, s, t).0.stableSince, later) && IsPast(Step(conf, s, t).0.unstableSince, later)
  {
  }

  lemma BranchKeepsSince(conf: Config, s: State, t: Tick)
    requires Decides(conf, t)
    ensures Congests(conf, Observed(s, t), Diff(t), t.clock) ==> Step(conf, s, t).0.unstableSince == s.unstableSince
    ensures !Congests(conf, Observed(s, t), Diff(t), t.clock) ==> Step(conf, s, t).0.stableSince == s.stableSince
  {
    hide Step, Congests;
    StepIs(conf, s, t);
  }

  /** While every tick is congested nothing resets unstableSince, while every tick is stable nothing
      resets stableSince. */
  lemma {:induction false} CongestedSince(conf: Config, start: Time, ticks: seq<Tick>, i: nat, j: nat)
    requires i <= j < |ticks| && forall k :: i <= k < j ==> CongestedAt(conf, ticks, k)
    ensures After(conf, start, ticks, j).unstableSince == After(conf, start, ticks, i).unstableSince
  {
    if i < j {
      hide Step, Congests, StalledAt;
      CongestedSince(conf, start, ticks, i, j - 1);
      assert CongestedAt(conf, ticks, j - 1);
      CongestsIs(conf, start, ticks, j - 1);
      BranchKeepsSince(conf, After(conf, start, ticks, j - 1), ticks[j - 1]);
    }
  }

  lemma {:induction false} StableSince(conf: Config, start: Time, ticks: seq<Tick>, i: nat, j: nat)
    requires i <= j < |ticks| && forall k :: i <= k < j ==> StableAt(conf, ticks, k)
    ensures After(conf, start, ticks, j).stableSince == After(conf, start, ticks, i).stableSince
  {
    if i < j {
      hide Step, Congests, CongestedAt;
      StableSince(conf, start, ticks, i, j - 1);
      assert StableAt(conf, ticks, j - 1);
      CongestsIs(conf, start, ticks, j - 1);
      BranchKeepsSince(conf, After(conf, start, ticks, j - 1), ticks[j - 1]);
    }
  }

  /** A last switch is one that some tick attempted. */
  lemma {:induction false} LastIsAttempt(conf: Config, start: Time, ticks: seq<Tick>, n: nat)
    requires n <= |ticks|
    ensures var s := After(conf, start, ticks, n);
      && (s.lastDowngradeTime.At? ==> exists m :: 0 <= m < n && ActionAt(conf, start, ticks, m) == Downgrade
                                                  && s.lastDowngradeTime == At(ticks[m].clock.stamp))
      && (s.lastUpgradeTime.At? ==> exists m :: 0 <= m < n && ActionAt(conf, start, ticks, m) == Upgrade
                                                && s.lastUpgradeTime == At(ticks[m].clock.stamp))
  {
    if n > 0 {
      LastIsAttempt(conf, start, ticks, n - 1);
      var before, t := After(conf, start, ticks, n - 1), ticks[n - 1];
      LastChangesByAttempt(conf, before, t);
      assert ActionAt(conf, start, ticks, n - 1) == Step(conf, before, t).1;
      hide Step;
    }
  }

  lemma LastChangesByAttempt(conf: Config, s: State, t: Tick)
    ensures var (s', a) := Step(conf, s, t);
      && s'.lastDowngradeTime == (if a == Downgrade then At(t.clock.stamp) else s.lastDowngradeTime)
      && s'.lastUpgradeTime == (if a == Upgrade then At(t.clock.stamp) else s.lastUpgradeTime)
  {
  }

  /** An attempt of that kind has been made in tick n, or so shortly before that the backoff still runs. */
  ghost predicate Attempted(conf: Config, start: Time, ticks: seq<Tick>, n: nat, a: Action, backoff: Duration)
    requires n < |ticks|
  {
    || ActionAt(conf, start, ticks, n) == a
    || exists m :: 0 <= m < n && ActionAt(conf, start, ticks, m) == a
                   && ticks[n].clock.backoff - ticks[m].clock.stamp < backoff
  }

  /** Congestion is answered: if all ticks from i to j are congested, for as long as instability must last,
      and the estimate leaves no room in the last one, a downgrade has been attempted then or is still
      backed off from. */
  lemma CongestionIsAnswered(conf: Config, start: Time, ticks: seq<Tick>, i: nat, j: nat)
    requires Monotone(ticks) && i <= j < |ticks| && start <= ticks[0].clock.resetStalled
    requires forall k :: i <= k <= j ==> CongestedAt(conf, ticks, k)
    requires ticks[j].clock.duration - ticks[i].clock.resetStalled >= conf.unstableDuration
    requires conf.unstableDuration <= MAX_DURATION && conf.downgradeBackoff <= MAX_DURATION
    requires Tight(conf, ticks[j])
    ensures Attempted(conf, start, ticks, j, Downgrade, conf.downgradeBackoff)
  {
    hide Step, Congests, Monotone, Diff, After;
    CongestedSince(conf, start, ticks, i, j);
    StampsArePast(conf, start, ticks, i);
    var s, c := After(conf, start, ticks, j), ticks[j].clock;
    assert CongestedAt(conf, ticks, j);
    CongestsIs(conf, start, ticks, j);
    if Since(c.backoff, s.lastDowngradeTime) < conf.downgradeBackoff {
      LastIsAttempt(conf, start, ticks, j);
    } else {
      CongestedDowngrades(conf, s, ticks[j]);
    }
  }

  lemma CongestedDowngrades(conf: Config, s: State, t: Tick)
    requires Tight(conf, t) && Congests(conf, Observed(s, t), Diff(t), t.clock)
    requires Since(t.clock.duration, s.unstableSince) >= conf.unstableDuration
    requires Since(t.clock.backoff, s.lastDowngradeTime) >= conf.downgradeBackoff
    ensures Step(conf, s, t).1 == Downgrade
  {
    hide Step, Congests;
    StepIs(conf, s, t);
  }

  /** And so is room: if all ticks from i to j are stable, for as long as stability must last, and the last
      one has room for more, an upgrade has been attempted then or is still backed off from. */
  lemma RoomIsUsed(conf: Config, start: Time, ticks: seq<Tick>, i: nat, j: nat)
    requires Monotone(ticks) && i <= j < |ticks| && start <= ticks[0].clock.resetStalled
    requires forall k :: i <= k <= j ==> StableAt(conf, ticks, k)
    requires ticks[j].clock.duration - ticks[i].clock.resetStalled >= conf.stableDuration
    requires conf.stableDuration <= MAX_DURATION && conf.upgradeBackoff <= MAX_DURATION
    requires Roomy(conf, ticks[j])
    ensures Attempted(conf, start, ticks, j, Upgrade, conf.upgradeBackoff)
  {
    hide Step, Congests, Monotone, Diff, After;
    StableSince(conf, start, ticks, i, j);
    StampsArePast(conf, start, ticks, i);
    var s, c := After(conf, start, ticks, j), ticks[j].clock;
    assert StableAt(conf, ticks, j);
    CongestsIs(conf, start, ticks, j);
    if Since(c.backoff, s.lastUpgradeTime) < conf.upgradeBackoff {
      LastIsAttempt(conf, start, ticks, j);
    } else {
      StableUpgrades(conf, s, ticks[j]);
    }
  }

  lemma StableUpgrades(conf: Config, s: State, t: Tick)
    requires Roomy(conf, t) && !Congests(conf, Observed(s, t), Diff(t), t.clock)
    requires Since(t.clock.duration, s.stableSince) >= conf.stableDuration
    requires Since(t.clock.backoff, s.lastUpgradeTime) >= conf.upgradeBackoff
    ensures Step(conf, s, t).1 == Upgrade
  {
    hide Step, Congests;
    StepIs(conf, s, t);
  }

  // ---- what a stall has waited for ------------------------------------------------------------

  /** The tick attempts a downgrade without a downward trend. */
  ghost predicate DowngradesByStalling(conf: Config, start: Time, ticks: seq<Tick>, n: nat)
    requires n < |ticks|
  {
    ActionAt(conf, start, ticks, n) == Downgrade && DirectionAt(conf, ticks, n) != Trend.Downward
  }

  /** The connection has been neutral and without room for more than StalledDuration. */
  ghost predicate HasWaited(conf: Config, ticks: seq<Tick>, n: nat)
    requires n < |ticks|
  {
    exists m: nat :: LastResetIs(conf, ticks, n, m)
                && ticks[n].clock.checkStalled - ticks[m].clock.resetStalled > conf.stalledDuration
  }

  lemma DowngradeReads(conf: Config, s: State, t: Tick)
    requires Step(conf, s, t).1 == Downgrade && Observed(s, t).trend.direction != Trend.Downward
    ensures Since(t.clock.checkStalled, Step(conf, s, t).0.stalledSince) > conf.stalledDuration
  {
  }

  /** A downgrade by stalling has waited for StalledDuration if and only if some tick up to it found the
      connection not neutral or with room. Without such a tick it has waited for nothing. */
  lemma StallHasWaitedIff(conf: Config, start: Time, ticks: seq<Tick>, n: nat)
    requires n < |ticks| && DowngradesByStalling(conf, start, ticks, n)
    ensures HasWaited(conf, ticks, n) <==> exists m :: 0 <= m <= n && Resets(conf, ticks, m)
  {
    hide Step, Resets, DirectionAt;
    StalledSinceLastReset(conf, start, ticks, n);
    StallReads(conf, start, ticks, n);
    match After(conf, start, ticks, n + 1).stalledSince
    case Never =>
    case At(x) =>
      var m: nat :| LastResetIs(conf, ticks, n, m) && ticks[m].clock.resetStalled == x;
      assert Resets(conf, ticks, m);
  }

  lemma StallReads(conf: Config, start: Time, ticks: seq<Tick>, n: nat)
    requires n < |ticks| && DowngradesByStalling(conf, start, ticks, n)
    ensures Since(ticks[n].clock.checkStalled, After(conf, start, ticks, n + 1).stalledSince) > conf.stalledDuration
  {
    AttemptDecides(conf, After(conf, start, ticks, n), ticks[n]);
    hide Step;
    ObservedIsTrend(conf, start, ticks, n);
    DowngradeReads(conf, After(conf, start, ticks, n), ticks[n]);
  }

  lemma AttemptDecides(conf: Config, s: State, t: Tick)
    ensures Step(conf, s, t).1 != Nothing ==> Decides(conf, t)
  {
  }

  /** When the very first tick attempts a downgrade: if it decides at all, and leaves no room, with any
      durations short of the longest there is; or else, with a negative threshold, if the tick itself takes
      longer than StalledDuration. */
  lemma FirstTickDowngradesIff(conf: Config, start: Time, ticks: seq<Tick>)
    requires |ticks| > 0
    ensures var t := ticks[0];
            ActionAt(conf, start, ticks, 0) == Downgrade
            <==> && Decides(conf, t)
                 && conf.downgradeBackoff <= MAX_DURATION && conf.unstableDuration <= MAX_DURATION
                 && if Diff(t) <= 1.0 + conf.diffThreshold then conf.stalledDuration < MAX_DURATION
                    else conf.diffThreshold < 0.0
                         && Since(t.clock.checkStalled, At(t.clock.resetStalled)) > conf.stalledDuration
  {
    if Decides(conf, ticks[0]) {
      StepIs(conf, Initial(start), ticks[0]);
    }
  }

  // ---- exactly which attempts are made --------------------------------------------------------

  /** The attempts of the first n ticks. */
  function Actions(conf: Config, start: Time, ticks: seq<Tick>, n: nat): seq<Action>
    requires n <= |ticks|
  {
    if n == 0 then [] else Actions(conf, start, ticks, n - 1) + [ActionAt(conf, start, ticks, n - 1)]
  }

  /** The last attempt of that kind before tick n is made in tick m. */
  ghost predicate LastAttemptIs(done: seq<Action>, n: nat, a: Action, m: nat)
    requires n <= |done|
  {
    m < n && done[m] == a && forall k :: m < k < n ==> done[k] != a
  }

  ghost predicate LastCongestedIs(conf: Config, ticks: seq<Tick>, n: nat, m: nat)
    requires n <= |ticks|
  {
    m < n && CongestedAt(conf, ticks, m) && forall k :: m < k < n ==> !CongestedAt(conf, ticks, k)
  }

  ghost predicate LastStableIs(conf: Config, ticks: seq<Tick>, n: nat, m: nat)
    requires n <= |ticks|
  {
    m < n && StableAt(conf, ticks, m) && forall k :: m < k < n ==> !StableAt(conf, ticks, k)
  }

  /** A downgrade is due: the tick is congested and leaves no room, the last downgrade is DowngradeBackoff
      ago, and so long as UnstableDuration there has been no stable tick. */
  ghost predicate DowngradeDue(conf: Config, ticks: seq<Tick>, done: seq<Action>, n: nat)
    requires n < |ticks| && n <= |done|
  {
    && CongestedAt(conf, ticks, n) && Tight(conf, ticks[n])
    && conf.downgradeBackoff <= MAX_DURATION && conf.unstableDuration <= MAX_DURATION
    && (forall m: nat :: LastAttemptIs(done, n, Downgrade, m) ==>
          ticks[n].clock.backoff - ticks[m].clock.stamp >= conf.downgradeBackoff)
    && (forall m: nat :: LastStableIs(conf, ticks, n, m) ==>
          ticks[n].clock.duration - ticks[m].clock.branch >= conf.unstableDuration)
  }

  /** An upgrade is due: the tick is stable and has room, the last upgrade is UpgradeBackoff ago, and so long
      as StableDuration, counted from the start at first, there has been no congested tick. */
  ghost predicate UpgradeDue(conf: Config, start: Time, ticks: seq<Tick>, done: seq<Action>, n: nat)
    requires n < |ticks| && n <= |done|
  {
    && StableAt(conf, ticks, n) && Roomy(conf, ticks[n])
    && conf.upgradeBackoff <= MAX_DURATION && conf.stableDuration <= MAX_DURATION
    && (forall m: nat :: LastAttemptIs(done, n, Upgrade, m) ==>
          ticks[n].clock.backoff - ticks[m].clock.stamp >= conf.upgradeBackoff)
    && (forall m: nat :: LastCongestedIs(conf, ticks, n, m) ==>
          ticks[n].clock.duration - ticks[m].clock.branch >= conf.stableDuration)
    && ((forall m :: 0 <= m < n ==> !CongestedAt(conf, ticks, m)) ==>
          ticks[n].clock.duration - start >= conf.stableDuration)
  }

  /** A tick attempts a switch exactly if it is due. */
  ghost predicate RightAt(conf: Config, start: Time, ticks: seq<Tick>, done: seq<Action>, n: nat)
    requires n < |ticks| && n < |done|
  {
    && (done[n] == Downgrade <==> DowngradeDue(conf, ticks, done, n))
    && (done[n] == Upgrade <==> UpgradeDue(conf, start, ticks, done, n))
  }

  lemma BranchStamps(conf: Config, s: State, t: Tick)
    ensures var (s', b) := (Step(conf, s, t).0, Decides(conf, t) && Congests(conf, Observed(s, t), Diff(t), t.clock));
      && s'.stableSince == (if b then At(t.clock.branch) else s.stableSince)
      && s'.unstableSince == (if Decides(conf, t) && !b then At(t.clock.branch) else s.unstableSince)
  {
  }

  lemma BranchStampsAt(conf: Config, start: Time, ticks: seq<Tick>, n: nat)
    requires n < |ticks|
    ensures var s, s', x := After(conf, start, ticks, n), After(conf, start, ticks, n + 1), At(ticks[n].clock.branch);
      && s'.stableSince == (if CongestedAt(conf, ticks, n) then x else s.stableSince)
      && s'.unstableSince == (if StableAt(conf, ticks, n) then x else s.unstableSince)
  {
    hide Step, Congests, DirectionAt, StalledAt, Diff;
    BranchStamps(conf, After(conf, start, ticks, n), ticks[n]);
    if Decides(conf, ticks[n]) { CongestsIs(conf, start, ticks, n); }
  }

  /** Since when the loop takes the connection to be stable. */
  lemma {:induction false} StableSinceIs(conf: Config, start: Time, ticks: seq<Tick>, n: nat)
    requires n <= |ticks|
    ensures match After(conf, start, ticks, n).stableSince
            case Never => false
            case At(x) => if forall m :: 0 <= m < n ==> !CongestedAt(conf, ticks, m) then x == start
                          else exists m: nat :: LastCongestedIs(conf, ticks, n, m) && ticks[m].clock.branch == x
  {
    hide CongestedAt, Step;
    if n > 0 {
      var before: nat := n - 1;
      StableSinceIs(conf, start, ticks, before);
      BranchStampsAt(conf, start, ticks, before);
      if CongestedAt(conf, ticks, before) {
        assert LastCongestedIs(conf, ticks, n, before);
      } else if m: nat :| m < before && CongestedAt(conf, ticks, m) {
        var last: nat :| LastCongestedIs(conf, ticks, before, last)
                         && At(ticks[last].clock.branch) == After(conf, start, ticks, before).stableSince;
        assert LastCongestedIs(conf, ticks, n, last);
      }
    }
  }

  /** Since when the loop takes it to be unstable, if it does so yet. */
  lemma {:induction false} UnstableSinceIs(conf: Config, start: Time, ticks: seq<Tick>, n: nat)
    requires n <= |ticks|
    ensures match After(conf, start, ticks, n).unstableSince
            case Never => forall m :: 0 <= m < n ==> !StableAt(conf, ticks, m)
            case At(x) => exists m: nat :: LastStableIs(conf, ticks, n, m) && ticks[m].clock.branch == x
  {
    hide StableAt, Step;
    if n > 0 {
      var before: nat := n - 1;
      UnstableSinceIs(conf, start, ticks, before);
      BranchStampsAt(conf, start, ticks, before);
      if StableAt(conf, ticks, before) {
        assert LastStableIs(conf, ticks, n, before);
      } else if x :| After(conf, start, ticks, before).unstableSince == At(x) {
        var last: nat :| LastStableIs(conf, ticks, before, last) && ticks[last].clock.branch == x;
        assert LastStableIs(conf, ticks, n, last);
      }
    }
  }

  /** `done` are the attempts of the first n ticks. */
  ghost predicate Did(conf: Config, start: Time, ticks: seq<Tick>, done: seq<Action>, n: nat)
    requires n <= |ticks| && n <= |done|
  {
    forall k :: 0 <= k < n ==> done[k] == ActionAt(conf, start, ticks, k)
  }

  function LastTime(s: State, a: Action): Stamp {
    if a == Downgrade then s.lastDowngradeTime else s.lastUpgradeTime
  }

  lemma DidStep(conf: Config, start: Time, ticks: seq<Tick>, done: seq<Action>, n: nat)
    requires n < |ticks| && n < |done| && Did(conf, start, ticks, done, n + 1)
    ensures Did(conf, start, ticks, done, n) && done[n] == ActionAt(conf, start, ticks, n)
  {
    hide ActionAt;
  }

  /** The last attempt in `done` and its stamp, if there is one. */
  ghost predicate LastIs(ticks: seq<Tick>, done: seq<Action>, n: nat, a: Action, s: Stamp)
    requires n <= |ticks| && n <= |done|
  {
    match s
    case Never => forall m :: 0 <= m < n ==> done[m] != a
    case At(x) => exists m: nat :: LastAttemptIs(done, n, a, m) && ticks[m].clock.stamp == x
  }

  lemma LastIsStep(ticks: seq<Tick>, done: seq<Action>, n: nat, a: Action, s: Stamp)
    requires n < |ticks| && n < |done| && LastIs(ticks, done, n, a, s)
    ensures LastIs(ticks, done, n + 1, a, if done[n] == a then At(ticks[n].clock.stamp) else s)
  {
    if done[n] == a {
      assert LastAttemptIs(done, n + 1, a, n);
    } else if x :| s == At(x) {
      var last: nat :| LastAttemptIs(done, n, a, last) && ticks[last].clock.stamp == x;
      assert LastAttemptIs(done, n + 1, a, last);
    }
  }

  lemma {:induction false} LastTimeIs(conf: Config, start: Time, ticks: seq<Tick>, done: seq<Action>, n: nat, a: Action)
    requires n <= |ticks| && n <= |done| && Did(conf, start, ticks, done, n) && a != Nothing
    ensures LastIs(ticks, done, n, a, LastTime(After(conf, start, ticks, n), a))
  {
    hide Step;
    if n > 0 {
      hide After, ActionAt, LastTime, Did, LastIs;
      DidStep(conf, start, ticks, done, n - 1);
      LastTimeIs(conf, start, ticks, done, n - 1, a);
      LastTimeStep(conf, start, ticks, n - 1, a);
      LastIsStep(ticks, done, n - 1, a, LastTime(After(conf, start, ticks, n - 1), a));
    }
  }

  lemma LastTimeStep(conf: Config, start: Time, ticks: seq<Tick>, n: nat, a: Action)
    requires n < |ticks| && a != Nothing
    ensures LastTime(After(conf, start, ticks, n + 1), a)
            == if ActionAt(conf, start, ticks, n) == a then At(ticks[n].clock.stamp)
               else LastTime(After(conf, start, ticks, n), a)
  {
    hide Step;
    LastChangesByAttempt(conf, After(conf, start, ticks, n), ticks[n]);
  }

  lemma AttemptIs(conf: Config, s: State, t: Tick)
    ensures var b, c := Decides(conf, t) && Congests(conf, Observed(s, t), Diff(t), t.clock), t.clock;
      && (Step(conf, s, t).1 == Downgrade
          <==> b && Tight(conf, t)
               && Since(c.backoff, s.lastDowngradeTime) >= conf.downgradeBackoff
               && Since(c.duration, s.unstableSince) >= conf.unstableDuration)
      && (Step(conf, s, t).1 == Upgrade
          <==> Decides(conf, t) && !b && Roomy(conf, t)
               && Since(c.backoff, s.lastUpgradeTime) >= conf.upgradeBackoff
               && Since(c.duration, s.stableSince) >= conf.stableDuration)
  {
  }

  lemma DowngradeIff(conf: Config, start: Time, ticks: seq<Tick>, done: seq<Action>, n: nat)
    requires n < |ticks| && n <= |done| && Did(conf, start, ticks, done, n)
    ensures ActionAt(conf, start, ticks, n) == Downgrade <==> DowngradeDue(conf, ticks, done, n)
  {
    hide Step, Congests, Tight, Did, CongestedAt, StableAt;
    var s := After(conf, start, ticks, n);
    AttemptIs(conf, s, ticks[n]);
    CongestedDecides(conf, ticks, n);
    if Decides(conf, ticks[n]) { CongestsIs(conf, start, ticks, n); }
    LastTimeIs(conf, start, ticks, done, n, Downgrade);
    UnstableSinceIs(conf, start, ticks, n);
    if x :| s.lastDowngradeTime == At(x) {
      var m: nat :| LastAttemptIs(done, n, Downgrade, m) && ticks[m].clock.stamp == x;
      assert forall k: nat :: LastAttemptIs(done, n, Downgrade, k) ==> k == m;
    }
    if x :| s.unstableSince == At(x) {
      var m: nat :| LastStableIs(conf, ticks, n, m) && ticks[m].clock.branch == x;
      assert forall k: nat :: LastStableIs(conf, ticks, n, k) ==> k == m;
    }
  }

  lemma CongestedDecides(conf: Config, ticks: seq<Tick>, n: nat)
    requires n < |ticks|
    ensures CongestedAt(conf, ticks, n) ==> Decides(conf, ticks[n])
    ensures StableAt(conf, ticks, n) <==> Decides(conf, ticks[n]) && !CongestedAt(conf, ticks, n)
  {
  }

  lemma UpgradeIff(conf: Config, start: Time, ticks: seq<Tick>, done: seq<Action>, n: nat)
    requires n < |ticks| && n <= |done| && Did(conf, start, ticks, done, n)
    ensures ActionAt(conf, start, ticks, n) == Upgrade <==> UpgradeDue(conf, start, ticks, done, n)
  {
    hide Step, Congests, Roomy, Did, CongestedAt, StableAt;
    var s := After(conf, start, ticks, n);
    AttemptIs(conf, s, ticks[n]);
    CongestedDecides(conf, ticks, n);
    if Decides(conf, ticks[n]) { CongestsIs(conf, start, ticks, n); }
    LastTimeIs(conf, start, ticks, done, n, Upgrade);
    StableSinceIs(conf, start, ticks, n);
    if x :| s.lastUpgradeTime == At(x) {
      var m: nat :| LastAttemptIs(done, n, Upgrade, m) && ticks[m].clock.stamp == x;
      assert forall k: nat :: LastAttemptIs(done, n, Upgrade, k) ==> k == m;
    }
    if i: nat :| i < n && CongestedAt(conf, ticks, i) {
      var m: nat :| LastCongestedIs(conf, ticks, n, m) && At(ticks[m].clock.branch) == s.stableSince;
      assert forall k: nat :: LastCongestedIs(conf, ticks, n, k) ==> k == m;
    }
  }

  /** In any run, whatever the clocks read, each tick attempts a switch exactly if it is due. */
  lemma {:induction false} AttemptsAreRight(conf: Config, start: Time, ticks: seq<Tick>, n: nat)
    requires n <= |ticks|
    ensures var done := Actions(conf, start, ticks, n);
            |done| == n && forall k :: 0 <= k < n ==> RightAt(conf, start, ticks, done, k)
  {
    hide DowngradeDue, UpgradeDue, ActionAt;
    var done := Actions(conf, start, ticks, n);
    ActionsAre(conf, start, ticks, n);
    forall k | 0 <= k < n ensures RightAt(conf, start, ticks, done, k) {
      DowngradeIff(conf, start, ticks, done, k);
      UpgradeIff(conf, start, ticks, done, k);
    }
  }

  lemma {:induction false} ActionsAre(conf: Config, start: Time, ticks: seq<Tick>, n: nat)
    requires n <= |ticks|
    ensures |Actions(conf, start, ticks, n)| == n
    ensures Did(conf, start, ticks, Actions(conf, start, ticks, n), n)
  {
    hide ActionAt;
    if n > 0 {
      ActionsAre(conf, start, ticks, n - 1);
    }
  }

  // ---- what the loop asks of the trend --------------------------------------------------------

  /** The estimates of the ticks. */
  function Targets(ticks: seq<Tick>): seq<int> {
    seq(|ticks|, i requires 0 <= i < |ticks| => ticks[i].targetBitrate)
  }

  /** The detector's newest values are the last eight estimates, if no two on end are the same. */
  lemma {:induction false} HistoryIsTargets(conf: Config, ticks: seq<Tick>, n: nat)
    requires n <= |ticks| && forall i :: 0 <= i < |ticks| ==> Decides(conf, ticks[i])
    requires forall i :: 0 < i < |ticks| ==> ticks[i - 1].targetBitrate != ticks[i].targetBitrate
    ensures Trend.History(TREND_PARAMS, Estimates(conf, ticks, n)) == Targets(ticks)[..n]
    ensures n > 0 ==> Trend.HasAdded(TREND_PARAMS, Estimates(conf, ticks, n))
  {
    hide Diff;
    if n > 0 {
      HistoryIsTargets(conf, ticks, n - 1);
      var before, c := Estimates(conf, ticks, n - 1), Trend.Add(ticks[n - 1].targetBitrate);
      assert (before + [c])[..|before|] == before && (before + [c])[|before|] == c;
      assert Targets(ticks)[..n] == Targets(ticks)[..n - 1] + [ticks[n - 1].targetBitrate];
    }
  }

  /** Of eight distinct estimates, which have 28 pairs, the trend is upward if at least 15 of these ascend,
      downward if at least 22 descend, and neutral otherwise; and it is neutral before there are eight. */
  lemma EightEstimates(conf: Config, ticks: seq<Tick>, n: nat)
    requires n < |ticks| == 8 && Trend.Distinct(Targets(ticks))
    requires forall i :: 0 <= i < |ticks| ==> Decides(conf, ticks[i])
    ensures n < 7 ==> DirectionAt(conf, ticks, n) == Trend.Neutral
    ensures DirectionAt(conf, ticks, 7) == Trend.Upward <==> |Trend.Ascents(Targets(ticks))| >= 15
    ensures DirectionAt(conf, ticks, 7) == Trend.Downward <==> |Trend.Descents(Targets(ticks))| >= 22
  {
    hide Decides, Trend.Run, Trend.HasAdded, Trend.History, Trend.Ascents, Trend.Descents, Estimates;
    forall i | 0 < i < 8 ensures ticks[i - 1].targetBitrate != ticks[i].targetBitrate {
      assert Targets(ticks)[i - 1] != Targets(ticks)[i];
    }
    HistoryIsTargets(conf, ticks, n + 1);
    HistoryIsTargets(conf, ticks, 8);
    Trend.DirectionIff(TREND_PARAMS, Estimates(conf, ticks, n + 1));
    Trend.DirectionIff(TREND_PARAMS, Estimates(conf, ticks, 8));
    var v := Targets(ticks);
    assert Trend.Newest(TREND_PARAMS, Estimates(conf, ticks, 8)) == v by { assert v[..8] == v; }
    Trend.PairsAreSizes(v);
    Trend.DistinctPairs(v);
  }

  /** The eighth of eight falling estimates is answered by a downgrade, if it leaves no room and every wait
      has elapsed. */
  lemma FallingIsAnswered(conf: Config, start: Time, ticks: seq<Tick>)
    requires |ticks| == 8 && forall i, j :: 0 <= i < j < 8 ==> ticks[i].targetBitrate > ticks[j].targetBitrate
    requires (forall i :: 0 <= i < 8 ==> Decides(conf, ticks[i])) && Tight(conf, ticks[7])
    requires conf.downgradeBackoff <= MAX_DURATION && conf.unstableDuration <= MAX_DURATION
    requires forall m :: 0 <= m < 7 ==>
               && ticks[7].clock.backoff - ticks[m].clock.stamp >= conf.downgradeBackoff
               && ticks[7].clock.duration - ticks[m].clock.branch >= conf.unstableDuration
    ensures ActionAt(conf, start, ticks, 7) == Downgrade
  {
    hide ActionAt, DirectionAt, Decides, Tight, StalledAt, StableAt, Did;
    var v := Targets(ticks);
    AllDescend(v);
    EightEstimates(conf, ticks, 7);
    ActionsAre(conf, start, ticks, 7);
    DowngradeIff(conf, start, ticks, Actions(conf, start, ticks, 7), 7);
  }

  lemma AllDescend(v: seq<int>)
    requires |v| == 8 && forall i, j :: 0 <= i < j < 8 ==> v[i] > v[j]
    ensures Trend.Distinct(v) && |Trend.Descents(v)| == 28
  {
    Trend.DistinctPairs(v);
    Trend.PairsAreSizes(v);
    assert Trend.Ascents(v) == {};
  }

  // ---- the loop -------------------------------------------------------------------------------

  /** `attempts` is what the loop asks SetVideo for, tick by tick. */
  method EstimatorReader(conf: Config, start: Time, ticks: seq<Tick>) returns (attempts: seq<Action>)
    ensures |attempts| <= |ticks| && attempts == Actions(conf, start, ticks, |attempts|)
    ensures forall i :: 0 <= i < |attempts| ==> !ticks[i].closed
    ensures |attempts| < |ticks| ==> ticks[|attempts|].closed
    ensures forall n :: 0 <= n < |attempts| ==> RightAt(conf, start, ticks, attempts, n)
  {
    hide RightAt;
    var trend := new Trend.TrendDetector(TREND_PARAMS);
    var stableSince := At(start);
    var unstableSince, stalledSince, lastUpgradeTime, lastDowngradeTime := Never, Never, Never, Never;
    attempts := [];
    while |attempts| < |ticks|
      invariant |attempts| <= |ticks| && attempts == Actions(conf, start, ticks, |attempts|)
      invariant forall i :: 0 <= i < |attempts| ==> !ticks[i].closed
      invariant fresh(trend) && trend.params == TREND_PARAMS
      invariant State(trend.View(), stableSince, unstableSince, stalledSince, lastUpgradeTime, lastDowngradeTime)
             == After(conf, start, ticks, |attempts|)
      decreases |ticks| - |attempts|
    {
      var t := ticks[|attempts|];
      if t.closed {
        break;
      }
      if !t.active || conf.passive {
        attempts := attempts + [Nothing];
        continue;
      }
      trend.AddValue(t.targetBitrate);
      if t.streamBitrate.None? || t.streamBitrate.value == 0 {
        attempts := attempts + [Nothing];
        continue;
      }
      var diff := t.targetBitrate as real / t.streamBitrate.value as real;
      if trend.direction != Trend.Neutral || diff > 1.0 + conf.diffThreshold {
        stalledSince := At(t.clock.resetStalled);
      }
      var stalled := trend.direction == Trend.Neutral
          && Since(t.clock.checkStalled, stalledSince) > conf.stalledDuration;
      if trend.direction == Trend.Downward || stalled {
        stableSince := At(t.clock.branch);
        if Since(t.clock.backoff, lastDowngradeTime) < conf.downgradeBackoff
           || Since(t.clock.duration, unstableSince) < conf.unstableDuration
           || (conf.diffThreshold >= 0.0 && diff > 1.0 + conf.diffThreshold) {
          attempts := attempts + [Nothing];
          continue;
        }
        lastDowngradeTime := At(t.clock.stamp);
        attempts := attempts + [Downgrade];
        continue;
      }
      unstableSince := At(t.clock.branch);
      if Since(t.clock.backoff, lastUpgradeTime) < conf.upgradeBackoff
         || Since(t.clock.duration, stableSince) < conf.stableDuration
         || (conf.diffThreshold >= 0.0 && diff < 1.0 + conf.diffThreshold) {
        attempts := attempts + [Nothing];
        continue;
      }
      lastUpgradeTime := At(t.clock.stamp);
      attempts := attempts + [Upgrade];
    }
    AttemptsAreRight(conf, start, ticks, |attempts|);
  }
}
