/** The limiter serving many users: checks of all of them in any order, with time
    passing in between. */
module FloodRuns {
  import opened Messages
  import opened BrushLimit
  import opened FloodBound

  datatype Event = Elapse(seconds: nat) | Check(userId: string, ok: bool)

  ghost predicate Next(conf: BrushConfig, r: Redis, e: Event, r': Redis) {
    match e
    case Elapse(seconds) => r' == r.(now := r.now + seconds)
    case Check(userId, ok) => Checked(conf, r, r', userId, ok)
  }

  /** The stores between the events of a run that begins with nothing stored. */
  ghost predicate Trace(conf: BrushConfig, rs: seq<Redis>, es: seq<Event>) {
    && |rs| == |es| + 1
    && rs[0] == Redis(rs[0].now, map[], [], [])
    && forall i | 0 <= i < |es| :: Next(conf, rs[i], es[i], rs[i + 1])
  }

  predicate IsCheck(e: Event, u: string) {
    e.Check? && e.userId == u
  }

  /** When a user was checked. */
  function CheckTimes(rs: seq<Redis>, es: seq<Event>, u: string): seq<int>
    requires |rs| == |es| + 1
  {
    if es == [] then []
    else
      var (n, before) := (|es| - 1, CheckTimes(rs[..|es|], es[..|es| - 1], u));
      if IsCheck(es[n], u) then before + [rs[n].now] else before
  }

  /** When a check let the user through. */
  function PassTimes(rs: seq<Redis>, es: seq<Event>, u: string): seq<int>
    requires |rs| == |es| + 1
  {
    if es == [] then []
    else
      var (n, before) := (|es| - 1, PassTimes(rs[..|es|], es[..|es| - 1], u));
      if IsCheck(es[n], u) && es[n].ok then before + [rs[n].now] else before
  }

  lemma TraceBefore(conf: BrushConfig, rs: seq<Redis>, es: seq<Event>)
    requires Trace(conf, rs, es) && es != []
    ensures Trace(conf, rs[..|es|], es[..|es| - 1])
    ensures Next(conf, rs[|es| - 1], es[|es| - 1], rs[|es|])
  {
  }

  /** Users do not disturb each other: in every run, what is stored of a user and
      which of its checks pass is what its own checks alone give. */
  lemma {:induction false} UsersApart(conf: BrushConfig, rs: seq<Redis>, es: seq<Event>, u: string)
    requires Trace(conf, rs, es)
    ensures var (r, times) := (rs[|es|], CheckTimes(rs, es, u));
            && UserOf(r, u) == UserRun(conf, times)
            && PassTimes(rs, es, u) == Accepted(conf, times)
            && Sorted(times) && (times != [] ==> times[|times| - 1] <= r.now)
  {
    if es != [] {
      var n := |es| - 1;
      TraceBefore(conf, rs, es);
      UsersApart(conf, rs[..n + 1], es[..n], u);
      if IsCheck(es[n], u) {
        OneMore(conf, CheckTimes(rs[..n + 1], es[..n], u), rs[n].now);
      }
    }
  }

  /** In every run of the limiter, with any users: no more than 2 * limit - 1
      messages of one user pass in any stretch of `brushTime` seconds. */
  lemma FloodBounded(conf: BrushConfig, rs: seq<Redis>, es: seq<Event>, u: string, a: int)
    requires Trace(conf, rs, es) && Strict(conf) && conf.brushTime >= 1
    ensures Within(PassTimes(rs, es, u), a, conf.brushTime) <= Bound(conf)
  {
    UsersApart(conf, rs, es, u);
    BoundHolds(conf, CheckTimes(rs, es, u), a);
  }

  // ------------------------------------------------------------------ mute

  lemma {:induction false} StillMuted(conf: BrushConfig, rs: seq<Redis>, es: seq<Event>, u: string,
                                      i: nat, j: nat, end: int)
    requires Trace(conf, rs, es) && i <= j < |rs| && rs[j].now < end
    requires var m := UserOf(rs[i], u).mute; m.Some? && m.value.expireAt == Some(end)
    ensures UserOf(rs[j], u) == UserOf(rs[i], u) && Muted(UserOf(rs[j], u), rs[j].now)
    decreases j
  {
    if i < j {
      assert Next(conf, rs[j - 1], es[j - 1], rs[j]);
      StillMuted(conf, rs, es, u, i, j - 1, end);
    }
  }

  /** After a trigger every check of the user is refused for the whole mute time. */
  lemma MuteLasts(conf: BrushConfig, rs: seq<Redis>, es: seq<Event>, u: string, i: nat, j: nat)
    requires Trace(conf, rs, es) && i < j < |es| && conf.brushSpeechTime >= 1
    requires IsCheck(es[i], u) && Triggers(conf, rs[i].now, UserOf(rs[i], u))
    requires IsCheck(es[j], u) && rs[j].now < rs[i].now + 60 * conf.brushSpeechTime
    ensures !es[i].ok && !es[j].ok && UserOf(rs[j + 1], u) == UserOf(rs[j], u)
  {
    assert Next(conf, rs[i], es[i], rs[i + 1]);
    assert Next(conf, rs[j], es[j], rs[j + 1]);
    StillMuted(conf, rs, es, u, i + 1, j, rs[i].now + 60 * conf.brushSpeechTime);
  }

  // ------------------------------------------------------------ escalation

  function Reports(pushes: seq<TriggerUser>, u: string): nat {
    if pushes == [] then 0 else (if pushes[0].userId == u then 1 else 0) + Reports(pushes[1..], u)
  }

  lemma ReportMore(report: TriggerUser, pushes: seq<TriggerUser>, u: string)
    ensures Reports([report] + pushes, u) == Reports(pushes, u) + if report.userId == u then 1 else 0
    ensures [] + pushes == pushes
  {
  }

  /** How often a user's checks triggered. */
  function TriggerCount(conf: BrushConfig, rs: seq<Redis>, es: seq<Event>, u: string): nat
    requires |rs| == |es| + 1
  {
    if es == [] then 0
    else
      var n := |es| - 1;
      TriggerCount(conf, rs[..|es|], es[..n], u) +
      if IsCheck(es[n], u) && Triggers(conf, rs[n].now, UserOf(rs[n], u)) then 1 else 0
  }

  function MutesPerBlock(conf: BrushConfig): nat {
    if conf.brushBanLimit >= 1 then conf.brushBanLimit else 1
  }

  function StoredMutes(r: Redis, u: string): int {
    Value(UserOf(r, u).block, r.now)
  }

  /** The triggers of a user are its blocks, each standing for so many triggers,
      and what is left in the counter. */
  predicate Adds(conf: BrushConfig, r: Redis, u: string, triggers: nat) {
    var (b, blocks, block) := (MutesPerBlock(conf), Reports(r.blockPushes, u), UserOf(r, u).block);
    && triggers == Reports(r.mutePushes, u) + blocks
    && triggers == b * blocks + StoredMutes(r, u)
    && 0 <= StoredMutes(r, u) < b
    && (block.Some? ==> block.value.expireAt.None?)
  }

  /** The n-th event is a check that reported t. */
  predicate Reported(conf: BrushConfig, rs: seq<Redis>, es: seq<Event>, t: TriggerUser, n: nat)
    requires |rs| == |es| + 1 && n < |es|
  {
    IsCheck(es[n], t.userId) && rs[n].now == t.brushTime && Triggers(conf, rs[n].now, UserOf(rs[n], t.userId))
  }

  /** A report names a user and a time at which a check of that user triggered. */
  lemma {:induction false} ReportsAreTriggers(conf: BrushConfig, rs: seq<Redis>, es: seq<Event>, t: TriggerUser)
    requires Trace(conf, rs, es) && (t in rs[|es|].mutePushes || t in rs[|es|].blockPushes)
    ensures exists n | 0 <= n < |es| :: Reported(conf, rs, es, t, n)
  {
    if es != [] {
      var n := |es| - 1;
      TraceBefore(conf, rs, es);
      if t in rs[n].mutePushes || t in rs[n].blockPushes {
        ReportsAreTriggers(conf, rs[..n + 1], es[..n], t);
        var i :| 0 <= i < n && Reported(conf, rs[..n + 1], es[..n], t, i);
        assert Reported(conf, rs, es, t, i);
      } else {
        assert Reported(conf, rs, es, t, n);
      }
    }
  }

  lemma NextBlock(b: nat, blocks: nat)
    ensures b * (blocks + 1) == b * blocks + b
  {
  }

  lemma NextAdds(conf: BrushConfig, r: Redis, e: Event, r': Redis, u: string, triggers: nat)
    requires Adds(conf, r, u, triggers) && Next(conf, r, e, r')
    ensures Adds(conf, r', u, triggers + if IsCheck(e, u) && Triggers(conf, r.now, UserOf(r, u)) then 1 else 0)
  {
    if e.Check? {
      var report := TriggerUser(e.userId, r.now);
      ReportMore(report, r.mutePushes, u);
      ReportMore(report, r.blockPushes, u);
      assert !IsCheck(e, u) ==> UserOf(r', u) == UserOf(r, u);
      NextBlock(MutesPerBlock(conf), Reports(r.blockPushes, u));
    }
  }

  /** In every run: each trigger of a user is reported once, and every
      MutesPerBlock-th of them is a block. */
  lemma {:induction false} Escalation(conf: BrushConfig, rs: seq<Redis>, es: seq<Event>, u: string)
    requires Trace(conf, rs, es)
    ensures Adds(conf, rs[|es|], u, TriggerCount(conf, rs, es, u))
  {
    if es != [] {
      var n := |es| - 1;
      TraceBefore(conf, rs, es);
      Escalation(conf, rs[..n + 1], es[..n], u);
      NextAdds(conf, rs[n], es[n], rs[n + 1], u, TriggerCount(conf, rs[..n + 1], es[..n], u));
    }
  }
}
