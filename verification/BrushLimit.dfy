/** The flood limiter of the live service: a counter with a lifetime, a timed mute
    and a counter of mutes that ends in a block, all kept in Redis. */
module BrushLimit {
  import opened Messages

  // --------------------------------------------------------------- storage

  datatype Entry = Entry(value: int, expireAt: Option<int>)

  /** What a check may report of a user. */
  datatype TriggerUser = TriggerUser(userId: string, brushTime: int)

  /** The store with its clock, in seconds; an expired entry reads as absent. The
      two lists keep everything ever pushed to the mute and to the block queue. */
  datatype Redis = Redis(now: int, store: map<string, Entry>,
                         mutePushes: seq<TriggerUser>, blockPushes: seq<TriggerUser>)

  predicate Alive(e: Option<Entry>, now: int) {
    e.Some? && (e.value.expireAt.Some? ==> now < e.value.expireAt.value)
  }

  function Value(e: Option<Entry>, now: int): int {
    if Alive(e, now) then e.value.value else 0
  }

  function Get(r: Redis, key: string): Option<Entry> {
    if key in r.store then Some(r.store[key]) else None
  }

  /** Seconds left; -1 without an expiry, -2 without an entry. */
  function TTL(r: Redis, key: string): int {
    var e := Get(r, key);
    if !Alive(e, r.now) then -2
    else if e.value.expireAt.None? then -1
    else e.value.expireAt.value - r.now
  }

  function Incr(r: Redis, key: string): Redis {
    var e := Get(r, key);
    r.(store := r.store[key := if Alive(e, r.now) then e.value.(value := e.value.value + 1) else Entry(1, None)])
  }

  function Del(r: Redis, key: string): Redis {
    r.(store := r.store - {key})
  }

  /** An expiry that is not in the future deletes the entry. */
  function Expire(r: Redis, key: string, seconds: int): Redis {
    var e := Get(r, key);
    if !Alive(e, r.now) then r
    else if seconds <= 0 then Del(r, key)
    else r.(store := r.store[key := e.value.(expireAt := Some(r.now + seconds))])
  }

  function Persist(r: Redis, key: string): Redis {
    var e := Get(r, key);
    if Alive(e, r.now) then r.(store := r.store[key := e.value.(expireAt := None)]) else r
  }

  /** Without a positive duration the entry has no expiry. */
  function Set(r: Redis, key: string, value: int, seconds: int): Redis {
    r.(store := r.store[key := Entry(value, if seconds > 0 then Some(r.now + seconds) else None)])
  }

  function CounterKey(userId: string): string { "im_brush_user:" + userId }

  function BlockKey(userId: string): string { "brush_user_block_im:" + userId }

  function MuteKey(userId: string): string { "im_super_brush_all_mute:" + userId }

  lemma KeysDiffer(u: string, w: string)
    ensures CounterKey(u) != BlockKey(w) && CounterKey(u) != MuteKey(w) && BlockKey(u) != MuteKey(w)
    ensures u != w ==> CounterKey(u) != CounterKey(w) && BlockKey(u) != BlockKey(w) && MuteKey(u) != MuteKey(w)
  {
    assert CounterKey(u)[3] == 'b' && MuteKey(w)[3] == 's';
    assert CounterKey(u)[0] == 'i' && BlockKey(w)[0] == 'b' && BlockKey(u)[0] == 'b' && MuteKey(w)[0] == 'i';
    assert CounterKey(u)[14..] == u && CounterKey(w)[14..] == w;
    assert BlockKey(u)[20..] == u && BlockKey(w)[20..] == w;
    assert MuteKey(u)[24..] == u && MuteKey(w)[24..] == w;
  }

  // -------------------------------------------------- one user, one check

  /** Length of a counter's life in seconds, messages per life, length of a mute in
      minutes, mutes until a block. */
  datatype BrushConfig = BrushConfig(brushTime: int, brushLimit: int, brushSpeechTime: int, brushBanLimit: int)

  /** What is stored about one user. */
  datatype User = User(counter: Option<Entry>, mute: Option<Entry>, block: Option<Entry>)

  function UserOf(r: Redis, userId: string): User {
    User(Get(r, CounterKey(userId)), Get(r, MuteKey(userId)), Get(r, BlockKey(userId)))
  }

  predicate Muted(v: User, now: int) {
    Alive(v.mute, now) && v.mute.value.expireAt.Some?
  }

  /** One message more: a counter that is new, or has no expiry, starts its life. */
  function Counted(conf: BrushConfig, now: int, c: Option<Entry>): Option<Entry> {
    if Alive(c, now) && c.value.expireAt.Some? then Some(Entry(c.value.value + 1, c.value.expireAt))
    else if conf.brushTime > 0 then Some(Entry(Value(c, now) + 1, Some(now + conf.brushTime)))
    else None
  }

  predicate Triggers(conf: BrushConfig, now: int, v: User) {
    !Muted(v, now) && Value(v.counter, now) + 1 > conf.brushLimit
  }

  predicate Accepts(conf: BrushConfig, now: int, v: User) {
    !Muted(v, now) && (Triggers(conf, now, v) ==> conf.brushSpeechTime <= 0)
  }

  predicate Blocks(conf: BrushConfig, now: int, v: User) {
    Triggers(conf, now, v) && Value(v.block, now) + 1 >= conf.brushBanLimit
  }

  function MuteEntry(conf: BrushConfig, now: int): Entry {
    var s := conf.brushSpeechTime;
    Entry(s, if s > 0 then Some(now + 60 * s) else None)
  }

  /** What is stored of the user after a check. */
  function After(conf: BrushConfig, now: int, v: User): User {
    if Muted(v, now) then v
    else
      var counted := Counted(conf, now, v.counter);
      if !Triggers(conf, now, v) then v.(counter := counted)
      else if Blocks(conf, now, v) then User(counted, Some(MuteEntry(conf, now)), None)
      else User(None, Some(MuteEntry(conf, now)), Some(Entry(Value(v.block, now) + 1, None)))
  }

  /** What a check does to one user's data, in terms of the entries that are alive at
      that time: the live mute decides about all else, the live counter about the
      trigger, and the live count of mutes about the block. */
  lemma CheckSpelled(conf: BrushConfig, now: int, v: User)
    requires conf.brushTime > 0
    ensures var live := (e: Option<Entry>) =>
              if e.Some? && (e.value.expireAt.None? || now < e.value.expireAt.value) then e.value.value else 0;
            var muted := v.mute.Some? && v.mute.value.expireAt.Some? && now < v.mute.value.expireAt.value;
            var running := v.counter.Some? && v.counter.value.expireAt.Some? && now < v.counter.value.expireAt.value;
            var (n, mutes) := (live(v.counter) + 1, live(v.block) + 1);
            var counter := Some(Entry(n, if running then v.counter.value.expireAt else Some(now + conf.brushTime)));
            var seconds := 60 * conf.brushSpeechTime;
            var mute := Some(Entry(conf.brushSpeechTime, if seconds > 0 then Some(now + seconds) else None));
            && (Accepts(conf, now, v) <==> !muted && (n <= conf.brushLimit || conf.brushSpeechTime <= 0))
            && After(conf, now, v) == if muted then v
                                      else if n <= conf.brushLimit then User(counter, v.mute, v.block)
                                      else if mutes < conf.brushBanLimit
                                      then User(None, mute, Some(Entry(mutes, None)))
                                      else User(counter, mute, None)
  {
  }

  /** Nobody else's data, and not the clock. */
  ghost predicate OnlyOf(r: Redis, r': Redis, userId: string) {
    r'.now == r.now && forall w | w != userId :: UserOf(r', w) == UserOf(r, w)
  }

  /** A check of one user: its own data change as they should, nobody else's do,
      and a trigger is reported once, to one of the queues. */
  ghost predicate Checked(conf: BrushConfig, r: Redis, r': Redis, userId: string, ok: bool) {
    var v := UserOf(r, userId);
    && OnlyOf(r, r', userId)
    && UserOf(r', userId) == After(conf, r.now, v)
    && ok == Accepts(conf, r.now, v)
    && var (triggered, blocked) := (Triggers(conf, r.now, v), Blocks(conf, r.now, v));
    && var report := [TriggerUser(userId, r.now)];
    && r'.mutePushes == (if triggered && !blocked then report else []) + r.mutePushes
    && r'.blockPushes == (if blocked then report else []) + r.blockPushes
  }

  lemma OthersKept(r: Redis, r': Redis, u: string)
    requires r'.now == r.now
    requires forall key | key !in {CounterKey(u), BlockKey(u), MuteKey(u)} :: Get(r', key) == Get(r, key)
    ensures OnlyOf(r, r', u)
  {
    forall w | w != u ensures UserOf(r', w) == UserOf(r, w) {
      KeysDiffer(u, w);
      KeysDiffer(w, u);
    }
  }

  class BrushLimit {
    var redis: Redis

    constructor (redis: Redis)
      ensures this.redis == redis
    {
      this.redis := redis;
    }

    /** The first half of a check: one message more. */
    method Count(userId: string, brushTime: int, ghost conf: BrushConfig) returns (messagesNum: int)
      requires conf.brushTime == brushTime
      modifies this
      ensures OnlyOf(old(redis), redis, userId) && redis == old(redis).(store := redis.store)
      ensures var v := UserOf(old(redis), userId);
              UserOf(redis, userId) == v.(counter := Counted(conf, redis.now, v.counter))
              && messagesNum == Value(v.counter, redis.now) + 1
    {
      KeysDiffer(userId, userId);
      redis := Incr(redis, CounterKey(userId));
      messagesNum := redis.store[CounterKey(userId)].value;
      var ttl := TTL(redis, CounterKey(userId));
      if ttl < 0 {
        redis := Expire(redis, CounterKey(userId), brushTime);
      }
      OthersKept(old(redis), redis, userId);
    }

    /** The second half: too many messages. */
    method Punish(userId: string, brushSpeechTime: int, brushBanLimit: int, ghost conf: BrushConfig)
      requires conf.brushSpeechTime == brushSpeechTime && conf.brushBanLimit == brushBanLimit
      modifies this
      ensures OnlyOf(old(redis), redis, userId)
      ensures var (v, now) := (UserOf(old(redis), userId), redis.now);
              var (blockNum, report) := (Value(v.block, now) + 1, [TriggerUser(userId, now)]);
              && UserOf(redis, userId) == (if blockNum < brushBanLimit
                                           then User(None, Some(MuteEntry(conf, now)), Some(Entry(blockNum, None)))
                                           else User(v.counter, Some(MuteEntry(conf, now)), None))
              && redis.mutePushes == (if blockNum < brushBanLimit then report else []) + old(redis.mutePushes)
              && redis.blockPushes == (if blockNum < brushBanLimit then [] else report) + old(redis.blockPushes)
    {
      KeysDiffer(userId, userId);
      redis := Set(redis, MuteKey(userId), brushSpeechTime, 60 * brushSpeechTime);
      redis := Incr(redis, BlockKey(userId));
      var blockNumIm := redis.store[BlockKey(userId)].value;
      redis := Persist(redis, BlockKey(userId));
      var report := TriggerUser(userId, redis.now);
      if blockNumIm < brushBanLimit {
        redis := redis.(mutePushes := [report] + redis.mutePushes);
        redis := Del(redis, CounterKey(userId));
      } else {
        redis := redis.(blockPushes := [report] + redis.blockPushes);
        redis := Del(redis, BlockKey(userId));
      }
      OthersKept(old(redis), redis, userId);
    }

    /** `conf` is None if the configuration cannot be read. */
    method Check(userId: string, conf: Option<BrushConfig>) returns (ok: bool, failed: bool)
      modifies this
      ensures Muted(UserOf(old(redis), userId), old(redis).now) ==> redis == old(redis) && !ok && failed
      ensures conf.None? ==> redis == old(redis) && ok == !Muted(UserOf(redis, userId), redis.now) && failed
      ensures conf.Some? ==> Checked(conf.value, old(redis), redis, userId, ok) && failed == !ok
    {
      var muteAll := TTL(redis, MuteKey(userId));
      if muteAll > 0 {
        return false, true;
      }
      if conf.None? {
        return true, true;
      }
      var BrushConfig(brushTime, brushLimit, brushSpeechTime, brushBanLimit) := conf.value;
      var messagesNum := Count(userId, brushTime, conf.value);
      if messagesNum > brushLimit {
        Punish(userId, brushSpeechTime, brushBanLimit, conf.value);
      }
      var blockAll := TTL(redis, MuteKey(userId));
      if blockAll > 0 {
        return false, true;
      }
      return true, false;
    }
  }
}
