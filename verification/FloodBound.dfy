/** What the flood limiter guarantees over whole runs: how many messages get
    through in a stretch of time, how long a mute lasts, and how triggers add up to
    blocks. */
module FloodBound {
  import opened Messages
  import opened BrushLimit

  // --------------------------------------------------- the checks of a user

  predicate Sorted(ts: seq<int>) {
    forall i, j | 0 <= i < j < |ts| :: ts[i] <= ts[j]
  }

  /** What is stored of a user after checks at the given times. */
  function UserRun(conf: BrushConfig, times: seq<int>): User {
    if times == [] then User(None, None, None)
    else After(conf, times[|times| - 1], UserRun(conf, times[..|times| - 1]))
  }

  /** The times of the accepted ones. */
  function Accepted(conf: BrushConfig, times: seq<int>): seq<int> {
    if times == [] then []
    else
      var (n, before) := (|times| - 1, Accepted(conf, times[..|times| - 1]));
      if Accepts(conf, times[n], UserRun(conf, times[..n])) then before + [times[n]] else before
  }

  /** How many of the times lie in [a, a + length). */
  function Within(ts: seq<int>, a: int, length: int): nat {
    if ts == [] then 0
    else Within(ts[..|ts| - 1], a, length) + (if a <= ts[|ts| - 1] < a + length then 1 else 0)
  }

  lemma {:induction false} AcceptedSorted(conf: BrushConfig, times: seq<int>)
    requires Sorted(times)
    ensures Sorted(Accepted(conf, times))
    ensures forall t | t in Accepted(conf, times) :: t in times
  {
    if times != [] {
      var (before, n) := (times[..|times| - 1], |times| - 1);
      AcceptedSorted(conf, before);
      forall t | t in before ensures t in times && t <= times[n] {
        var i :| 0 <= i < n && times[i] == t;
      }
      var a := Accepted(conf, before);
      assert forall i | 0 <= i < |a| :: a[i] in a;
    }
  }

  // ---------------------------------------------- spacing bounds the window

  lemma {:induction false} WithinNone(ts: seq<int>, a: int, length: int)
    requires forall t | t in ts :: t < a
    ensures Within(ts, a, length) == 0
  {
    if ts != [] {
      var n := |ts| - 1;
      assert forall i | 0 <= i < n :: ts[..n][i] == ts[i] && ts[i] in ts;
      assert ts[n] in ts;
      WithinNone(ts[..|ts| - 1], a, length);
    }
  }

  lemma {:induction false} WithinDrop(ts: seq<int>, a: int, length: int, n: nat)
    requires n <= |ts|
    ensures Within(ts, a, length) <= Within(ts[..|ts| - n], a, length) + n
    decreases n
  {
    if n == 0 {
      assert ts[..|ts|] == ts;
    } else {
      WithinDrop(ts[..|ts| - 1], a, length, n - 1);
      assert ts[..|ts| - 1][..|ts| - n] == ts[..|ts| - n];
    }
  }

  /** If of any n + 1 times in a row the last is `length` after the first, no
      window of that length holds more than n. */
  lemma {:induction false} SpacedWithin(ts: seq<int>, a: int, length: int, n: nat)
    requires Sorted(ts) && forall i | 0 <= i && i + n < |ts| :: ts[i] + length <= ts[i + n]
    ensures Within(ts, a, length) <= n
  {
    if ts != [] {
      var last := |ts| - 1;
      if a <= ts[last] < a + length {
        WithinDrop(ts, a, length, if n <= last then n else |ts|);
        if n <= last {
          assert ts[last - n] + length <= ts[last - n + n];
          WithinNone(ts[..|ts| - n], a, length);
        }
      } else {
        var init := ts[..last];
        SpacedWithin(init, a, length, n);
      }
    }
  }

  // ------------------------------------------------------ counter lifetimes

  /** The accepted messages fall into lifetimes of the counter, each beginning with
      its first message: at most `limit` each, beginnings `length` apart. */
  predicate Lives(ts: seq<int>, starts: seq<nat>, limit: int, length: int) {
    && (ts == [] <==> starts == [])
    && (forall j | 0 <= j < |starts| :: starts[j] < |ts|)
    && (starts != [] ==> starts[0] == 0 && |ts| <= starts[|starts| - 1] + limit)
    && forall j | 0 <= j < |starts| - 1 ::
         starts[j] < starts[j + 1] <= starts[j] + limit && ts[starts[j]] + length <= ts[starts[j + 1]]
  }

  /** The lifetime message i belongs to. */
  lemma {:induction false} LifeOf(starts: seq<nat>, i: nat) returns (j: nat)
    requires starts != [] && starts[0] == 0
    ensures j < |starts| && starts[j] <= i && (j + 1 < |starts| ==> i < starts[j + 1])
  {
    j := |starts| - 1;
    if starts[j] > i {
      j := LifeOf(starts[..j], i);
    }
  }

  /** Two lifetimes never fill a window completely. */
  lemma LivesSpaced(ts: seq<int>, starts: seq<nat>, limit: int, length: int, i: nat)
    requires Lives(ts, starts, limit, length) && Sorted(ts) && limit >= 1 && i + 2 * limit - 1 < |ts|
    ensures ts[i] + length <= ts[i + 2 * limit - 1]
  {
    var j := LifeOf(starts, i);
    if starts[j] < i {
      assert ts[starts[j + 1]] + length <= ts[starts[j + 2]];
    }
  }

  /** Where a user stands at time `now`: in the life that began last, counted
      right, or past it, or muted to the end of it. */
  predicate Standing(conf: BrushConfig, v: User, ts: seq<int>, starts: seq<nat>, now: int)
    requires Lives(ts, starts, conf.brushLimit, conf.brushTime)
  {
    var end := if starts == [] then now else ts[starts[|starts| - 1]] + conf.brushTime;
    && (Alive(v.counter, now) ==>
          && starts != [] && v.counter.value.expireAt == Some(end)
          && (v.counter.value.value <= conf.brushLimit ==> v.counter.value.value == |ts| - starts[|starts| - 1]))
    && (!Alive(v.counter, now) ==>
          end <= now || (v.mute.Some? && v.mute.value.expireAt.Some? && end <= v.mute.value.expireAt.value))
    && (v.block.Some? ==> v.block.value.value >= 1)
  }

  /** Every trigger mutes, and after a mute the life it ended is over. */
  predicate Strict(conf: BrushConfig) {
    conf.brushSpeechTime >= 1
    && (conf.brushLimit <= 0 || conf.brushBanLimit <= 1 || 60 * conf.brushSpeechTime >= conf.brushTime)
  }

  lemma StandingLater(conf: BrushConfig, v: User, ts: seq<int>, starts: seq<nat>, now: int, later: int)
    requires Lives(ts, starts, conf.brushLimit, conf.brushTime) && Standing(conf, v, ts, starts, now) && now <= later
    ensures Standing(conf, v, ts, starts, later)
  {
  }

  lemma NewLife(ts: seq<int>, starts: seq<nat>, limit: int, length: int, now: int)
    requires Lives(ts, starts, limit, length) && limit >= 1
    requires starts != [] ==> ts[starts[|starts| - 1]] + length <= now
    ensures Lives(ts + [now], starts + [|ts|], limit, length)
  {
  }

  lemma SameLife(ts: seq<int>, starts: seq<nat>, limit: int, length: int, now: int)
    requires Lives(ts, starts, limit, length) && starts != [] && |ts| < starts[|starts| - 1] + limit
    ensures Lives(ts + [now], starts, limit, length)
  {
  }

  lemma AcceptStands(conf: BrushConfig, v: User, ts: seq<int>, starts: seq<nat>, now: int) returns (starts': seq<nat>)
    requires Lives(ts, starts, conf.brushLimit, conf.brushTime) && Standing(conf, v, ts, starts, now)
    requires Strict(conf) && conf.brushTime >= 1 && conf.brushLimit >= 1 && Accepts(conf, now, v)
    ensures Lives(ts + [now], starts', conf.brushLimit, conf.brushTime)
    ensures Standing(conf, After(conf, now, v), ts + [now], starts', now)
  {
    if Alive(v.counter, now) {
      SameLife(ts, starts, conf.brushLimit, conf.brushTime, now);
      starts' := starts;
    } else {
      NewLife(ts, starts, conf.brushLimit, conf.brushTime, now);
      starts' := starts + [|ts|];
    }
  }

  lemma RefuseStands(conf: BrushConfig, v: User, ts: seq<int>, starts: seq<nat>, now: int)
    requires Lives(ts, starts, conf.brushLimit, conf.brushTime) && Standing(conf, v, ts, starts, now)
    requires Strict(conf) && conf.brushTime >= 1 && conf.brushLimit >= 1 && !Accepts(conf, now, v)
    requires starts != [] ==> ts[starts[|starts| - 1]] <= now
    ensures Standing(conf, After(conf, now, v), ts, starts, now)
  {
  }

  lemma CheckStands(conf: BrushConfig, v: User, ts: seq<int>, starts: seq<nat>, now: int, later: int)
    returns (starts': seq<nat>)
    requires now <= later
    requires Lives(ts, starts, conf.brushLimit, conf.brushTime) && Standing(conf, v, ts, starts, now)
    requires Strict(conf) && conf.brushTime >= 1 && conf.brushLimit >= 1 && forall t | t in ts :: t <= now
    ensures var ts' := if Accepts(conf, now, v) then ts + [now] else ts;
            && Lives(ts', starts', conf.brushLimit, conf.brushTime)
            && Standing(conf, After(conf, now, v), ts', starts', later)
  {
    if Accepts(conf, now, v) {
      starts' := AcceptStands(conf, v, ts, starts, now);
      StandingLater(conf, After(conf, now, v), ts + [now], starts', now, later);
    } else {
      starts' := starts;
      assert starts != [] ==> ts[starts[|starts| - 1]] in ts;
      RefuseStands(conf, v, ts, starts, now);
      StandingLater(conf, After(conf, now, v), ts, starts', now, later);
    }
  }

  ghost predicate RunStanding(conf: BrushConfig, times: seq<int>, starts: seq<nat>, now: int) {
    && Lives(Accepted(conf, times), starts, conf.brushLimit, conf.brushTime)
    && Standing(conf, UserRun(conf, times), Accepted(conf, times), starts, now)
  }

  lemma RunStandsNext(conf: BrushConfig, times: seq<int>, n: nat, before: seq<nat>, now: int) returns (starts: seq<nat>)
    requires Strict(conf) && conf.brushTime >= 1 && conf.brushLimit >= 1
    requires n + 1 == |times| && Sorted(times) && times[n] <= now
    requires RunStanding(conf, times[..n], before, times[n])
    ensures RunStanding(conf, times, starts, now)
  {
    var (v, ts) := (UserRun(conf, times[..n]), Accepted(conf, times[..n]));
    AcceptedBefore(conf, times[..n], times[n]);
    starts := CheckStands(conf, v, ts, before, times[n], now);
    assert UserRun(conf, times) == After(conf, times[n], v);
    assert Accepted(conf, times) == if Accepts(conf, times[n], v) then ts + [times[n]] else ts;
  }

  lemma {:induction false} RunStands(conf: BrushConfig, times: seq<int>, now: int) returns (starts: seq<nat>)
    requires Strict(conf) && conf.brushTime >= 1 && conf.brushLimit >= 1
    requires Sorted(times) && (times != [] ==> times[|times| - 1] <= now)
    ensures RunStanding(conf, times, starts, now)
  {
    if times == [] {
      starts := [];
    } else {
      var n := |times| - 1;
      var before := RunStands(conf, times[..n], times[n]);
      starts := RunStandsNext(conf, times, n, before, now);
    }
  }

  lemma AcceptedBefore(conf: BrushConfig, times: seq<int>, t: int)
    requires Sorted(times) && (times != [] ==> times[|times| - 1] <= t)
    ensures forall s | s in Accepted(conf, times) :: s <= t
  {
  }

  // -------------------------------------------------------- main theorems

  /** The most messages a window may hold. */
  function Bound(conf: BrushConfig): nat {
    if conf.brushLimit >= 1 then 2 * conf.brushLimit - 1 else 0
  }

  lemma {:induction false} NoneAccepted(conf: BrushConfig, times: seq<int>)
    requires Strict(conf) && conf.brushLimit <= 0
    ensures Accepted(conf, times) == [] && Value(UserRun(conf, times).counter, 0) >= 0
    ensures var c := UserRun(conf, times).counter; c.Some? ==> c.value.value >= 1
  {
    if times != [] {
      NoneAccepted(conf, times[..|times| - 1]);
    }
  }

  lemma BoundHolds(conf: BrushConfig, times: seq<int>, a: int)
    requires Strict(conf) && conf.brushTime >= 1 && Sorted(times)
    ensures Within(Accepted(conf, times), a, conf.brushTime) <= Bound(conf)
  {
    if conf.brushLimit <= 0 {
      NoneAccepted(conf, times);
    } else {
      var ts := Accepted(conf, times);
      AcceptedSorted(conf, times);
      var starts := RunStands(conf, times, if times == [] then 0 else times[|times| - 1]);
      forall i | 0 <= i && i + Bound(conf) < |ts| ensures ts[i] + conf.brushTime <= ts[i + Bound(conf)] {
        LivesSpaced(ts, starts, conf.brushLimit, conf.brushTime, i);
      }
      SpacedWithin(ts, a, conf.brushTime, Bound(conf));
    }
  }

  /** The bound holds whatever the user does. */
  ghost predicate Bounded(conf: BrushConfig) {
    forall times, a | Sorted(times) :: Within(Accepted(conf, times), a, conf.brushTime) <= Bound(conf)
  }

  /** Exactly the strict configurations bound the flood. */
  lemma BoundExact(conf: BrushConfig)
    requires conf.brushTime >= 1
    ensures Bounded(conf) <==> Strict(conf)
  {
    if Strict(conf) {
      forall times, a | Sorted(times) ensures Within(Accepted(conf, times), a, conf.brushTime) <= Bound(conf) {
        BoundHolds(conf, times, a);
      }
    } else {
      var times := [];
      if conf.brushSpeechTime <= 0 {
        times := NeverMuted(conf);
      } else {
        times := ShortMute(conf);
      }
      assert Within(Accepted(conf, times), 0, conf.brushTime) > Bound(conf);
    }
  }

  // ------------------------------------------------- runs at the bound

  function Repeat(t: int, k: nat): (ts: seq<int>)
    ensures |ts| == k && forall i | 0 <= i < k :: ts[i] == t
  {
    seq(k, _ => t)
  }

  lemma {:induction false} WithinAll(ts: seq<int>, a: int, length: int)
    requires forall i | 0 <= i < |ts| :: a <= ts[i] < a + length
    ensures Within(ts, a, length) == |ts|
  {
    if ts != [] {
      WithinAll(ts[..|ts| - 1], a, length);
    }
  }

  lemma {:induction false} WithinConcat(s: seq<int>, ts: seq<int>, a: int, length: int)
    ensures Within(s + ts, a, length) == Within(s, a, length) + Within(ts, a, length)
  {
    if ts == [] {
      assert s + ts == s;
    } else {
      WithinConcat(s, ts[..|ts| - 1], a, length);
      assert (s + ts)[..|s + ts| - 1] == s + ts[..|ts| - 1];
    }
  }

  lemma OneMore(conf: BrushConfig, times: seq<int>, t: int)
    ensures UserRun(conf, times + [t]) == After(conf, t, UserRun(conf, times))
    ensures Accepted(conf, times + [t]) ==
            if Accepts(conf, t, UserRun(conf, times)) then Accepted(conf, times) + [t] else Accepted(conf, times)
  {
  }

  predicate Room(conf: BrushConfig, v: User, t: int, k: nat) {
    && conf.brushTime >= 1 && !Muted(v, t) && Value(v.counter, t) + k <= conf.brushLimit
    && (Alive(v.counter, t) ==> v.counter.value.expireAt.Some?)
  }

  /** The user after k accepted checks at time t. */
  function Counts(conf: BrushConfig, v: User, t: int, k: nat): User {
    if k == 0 then v
    else v.(counter := Some(Entry(Value(v.counter, t) + k,
              if Alive(v.counter, t) then v.counter.value.expireAt else Some(t + conf.brushTime))))
  }

  lemma CountsMore(conf: BrushConfig, v: User, t: int, k: nat)
    requires k >= 1 && Room(conf, v, t, k)
    ensures Accepts(conf, t, Counts(conf, v, t, k - 1))
    ensures After(conf, t, Counts(conf, v, t, k - 1)) == Counts(conf, v, t, k)
  {
  }

  lemma RepeatMore(ts: seq<int>, t: int, k: nat)
    requires k >= 1
    ensures ts + Repeat(t, k) == (ts + Repeat(t, k - 1)) + [t]
  {
  }

  /** The checks of one second that fit into what is left of the counter. */
  lemma {:induction false} Burst(conf: BrushConfig, times: seq<int>, t: int, k: nat)
    requires Room(conf, UserRun(conf, times), t, k)
    ensures Accepted(conf, times + Repeat(t, k)) == Accepted(conf, times) + Repeat(t, k)
    ensures UserRun(conf, times + Repeat(t, k)) == Counts(conf, UserRun(conf, times), t, k)
  {
    if k == 0 {
      assert times + Repeat(t, k) == times;
    } else {
      Burst(conf, times, t, k - 1);
      OneMore(conf, times + Repeat(t, k - 1), t);
      CountsMore(conf, UserRun(conf, times), t, k);
      RepeatMore(times, t, k);
      RepeatMore(Accepted(conf, times), t, k);
    }
  }

  /** Without a mute time everything is accepted. */
  lemma {:induction false} AllAccepted(conf: BrushConfig, times: seq<int>)
    requires conf.brushSpeechTime <= 0
    ensures Accepted(conf, times) == times
    ensures var m := UserRun(conf, times).mute; m.Some? ==> m.value.expireAt.None?
  {
    if times != [] {
      AllAccepted(conf, times[..|times| - 1]);
    }
  }

  lemma NeverMuted(conf: BrushConfig) returns (times: seq<int>)
    requires conf.brushTime >= 1 && conf.brushSpeechTime <= 0
    ensures Sorted(times) && Within(Accepted(conf, times), 0, conf.brushTime) > Bound(conf)
  {
    times := Repeat(0, Bound(conf) + 1);
    AllAccepted(conf, times);
    WithinAll(times, 0, conf.brushTime);
  }

  /** A full life, and one message too many. */
  lemma Overrun(conf: BrushConfig)
    requires conf.brushTime >= 1 && conf.brushSpeechTime >= 1 && conf.brushLimit >= 1 && conf.brushBanLimit >= 2
    ensures var times := Repeat(0, conf.brushLimit) + [0];
            && Accepted(conf, times) == Repeat(0, conf.brushLimit)
            && UserRun(conf, times) == User(None, Some(MuteEntry(conf, 0)), Some(Entry(1, None)))
  {
    var first := Repeat(0, conf.brushLimit);
    Burst(conf, [], 0, conf.brushLimit);
    assert [] + first == first;
    OneMore(conf, first, 0);
  }

  lemma LifeAfterMute(conf: BrushConfig, muted: seq<int>, t: int)
    requires conf.brushTime >= 1 && conf.brushLimit >= 1 && conf.brushSpeechTime >= 1 && t == 60 * conf.brushSpeechTime
    requires UserRun(conf, muted) == User(None, Some(MuteEntry(conf, 0)), Some(Entry(1, None)))
    ensures Accepted(conf, muted + Repeat(t, conf.brushLimit)) == Accepted(conf, muted) + Repeat(t, conf.brushLimit)
  {
    Burst(conf, muted, t, conf.brushLimit);
  }

  /** ... and another full life when the mute is over. */
  lemma ShortMute(conf: BrushConfig) returns (times: seq<int>)
    requires conf.brushTime >= 1 && conf.brushSpeechTime >= 1 && !Strict(conf)
    ensures Sorted(times) && Within(Accepted(conf, times), 0, conf.brushTime) > Bound(conf)
  {
    var (n, over) := (conf.brushLimit, 60 * conf.brushSpeechTime);
    times := Repeat(0, n) + [0] + Repeat(over, n);
    assert Sorted(times);
    assert Accepted(conf, times) == Repeat(0, n) + Repeat(over, n) by {
      Overrun(conf);
      LifeAfterMute(conf, Repeat(0, n) + [0], over);
    }
    WithinAll(Repeat(0, n) + Repeat(over, n), 0, conf.brushTime);
  }

  lemma RestOfLife(conf: BrushConfig, times: seq<int>)
    requires conf.brushTime >= 2 && conf.brushLimit >= 1 && Accepted(conf, times) == times
    requires UserRun(conf, times) == User(Some(Entry(1, Some(conf.brushTime))), None, None)
    ensures var life := times + Repeat(conf.brushTime - 1, conf.brushLimit - 1);
            && Accepted(conf, life) == life
            && UserRun(conf, life) == User(Some(Entry(conf.brushLimit, Some(conf.brushTime))), None, None)
  {
    var (v, t, k) := (UserRun(conf, times), conf.brushTime - 1, conf.brushLimit - 1);
    assert Room(conf, v, t, k);
    assert Counts(conf, v, t, k) == User(Some(Entry(conf.brushLimit, Some(conf.brushTime))), None, None);
    Burst(conf, times, t, k);
  }

  lemma OneLife(conf: BrushConfig)
    requires conf.brushTime >= 2 && conf.brushLimit >= 1
    ensures var life := [0] + Repeat(conf.brushTime - 1, conf.brushLimit - 1);
            && Accepted(conf, life) == life
            && UserRun(conf, life) == User(Some(Entry(conf.brushLimit, Some(conf.brushTime))), None, None)
  {
    OneMore(conf, [], 0);
    assert [] + [0] == [0];
    assert UserRun(conf, [0]) == User(Some(Entry(1, Some(conf.brushTime))), None, None);
    RestOfLife(conf, [0]);
  }

  lemma FullWindow(length: int, n: nat)
    requires length >= 2 && n >= 1
    ensures Within([0] + Repeat(length - 1, n - 1) + Repeat(length, n), 1, length) == 2 * n - 1
  {
    var tail := Repeat(length - 1, n - 1) + Repeat(length, n);
    assert [0] + Repeat(length - 1, n - 1) + Repeat(length, n) == [0] + tail;
    WithinConcat([0], tail, 1, length);
    WithinAll(tail, 1, length);
    WithinNone([0], 1, length);
  }

  lemma NextLife(conf: BrushConfig, life: seq<int>, t: int)
    requires conf.brushTime >= 1 && conf.brushLimit >= 1 && Accepted(conf, life) == life
    requires UserRun(conf, life) == User(Some(Entry(conf.brushLimit, Some(t))), None, None)
    ensures var times := life + Repeat(t, conf.brushLimit);
            Accepted(conf, times) == times
  {
    Burst(conf, life, t, conf.brushLimit);
  }

  /** The bound is attained: one message, the rest of its life at the end of it,
      and a full life right after. */
  lemma BoundAttained(conf: BrushConfig) returns (times: seq<int>)
    requires conf.brushTime >= 2 && conf.brushLimit >= 1
    ensures Sorted(times) && Within(Accepted(conf, times), 1, conf.brushTime) == Bound(conf)
  {
    var (n, length) := (conf.brushLimit, conf.brushTime);
    times := [0] + Repeat(length - 1, n - 1) + Repeat(length, n);
    assert Sorted(times);
    assert Accepted(conf, times) == times by {
      OneLife(conf);
      NextLife(conf, [0] + Repeat(length - 1, n - 1), length);
    }
    FullWindow(length, n);
  }
}
