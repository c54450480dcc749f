/** The concurrent pipeline of the message-transfer service: claim readers buffer
    what they read, a ticker cuts each buffer into chunks, one distributor groups
    a chunk by key and hands every group to the channel of its key, and one worker
    per channel handles the groups. */
module Pipeline {
  import opened Messages

  const SPLIT := 1000
  const CHANNEL_NUM := 100
  const CHANNEL_CAPACITY := 50

  /** A message as read from the broker: its key, the length of its value, and
      what decoding the value gives (None when decoding fails). */
  datatype ConsumerMessage = ConsumerMessage(key: string, length: nat, decoded: Option<Msg>)

  /** A group on a worker's channel. */
  datatype ChannelValue = ChannelValue(uniqueKey: string, list: seq<ConsumerMessage>)

  /** One partition: its buffer, and the chunks its ticker has still to hand over. */
  datatype Claim = Claim(messages: seq<ConsumerMessage>, unsent: seq<seq<ConsumerMessage>>)

  /** Which partition a key is produced to, and its hash code. */
  datatype Env = Env(partitions: nat, partitionOf: string -> nat, hashOf: string -> nat)

  ghost predicate GoodEnv(env: Env) {
    forall k: string :: env.partitionOf(k) < env.partitions
  }

  function ChannelOf(env: Env, key: string): nat {
    env.hashOf(key) % CHANNEL_NUM
  }

  /** `groups` are the groups the distributor has still to send; it takes a new
      chunk only when there are none. `handled` and `arrived` are history. */
  datatype State = State(claims: seq<Claim>, groups: Groups,
                         channels: seq<seq<ChannelValue>>,
                         handled: seq<ChannelValue>, arrived: seq<ConsumerMessage>)

  // ------------------------------------------------------- per-key views

  /** The decodable messages of one key, in order. */
  function ForKey(ms: seq<ConsumerMessage>, k: string): seq<ConsumerMessage> {
    if ms == [] then []
    else ForKey(ms[..|ms| - 1], k) +
         (if ms[|ms| - 1].key == k && ms[|ms| - 1].decoded.Some? then [ms[|ms| - 1]] else [])
  }

  function Concat(chunks: seq<seq<ConsumerMessage>>): seq<ConsumerMessage> {
    if chunks == [] then [] else chunks[0] + Concat(chunks[1..])
  }

  /** The messages of one key among channel values, in order. */
  function Carried(vs: seq<ChannelValue>, k: string): seq<ConsumerMessage> {
    if vs == [] then []
    else Carried(vs[..|vs| - 1], k) + (if vs[|vs| - 1].uniqueKey == k then vs[|vs| - 1].list else [])
  }

  lemma {:induction false} ForKeyConcat(a: seq<ConsumerMessage>, b: seq<ConsumerMessage>, k: string)
    ensures ForKey(a + b, k) == ForKey(a, k) + ForKey(b, k)
  {
    if b == [] {
      assert a + b == a;
    } else {
      var n := |b| - 1;
      ForKeyConcat(a, b[..n], k);
      assert (a + b)[..|a + b| - 1] == a + b[..n];
    }
  }

  lemma {:induction false} CarriedConcat(a: seq<ChannelValue>, b: seq<ChannelValue>, k: string)
    ensures Carried(a + b, k) == Carried(a, k) + Carried(b, k)
  {
    if b == [] {
      assert a + b == a;
    } else {
      var n := |b| - 1;
      CarriedConcat(a, b[..n], k);
      assert (a + b)[..|a + b| - 1] == a + b[..n];
    }
  }

  lemma CarriedOne(v: ChannelValue, k: string)
    ensures Carried([v], k) == if v.uniqueKey == k then v.list else []
  {
  }

  lemma {:induction false} ForKeyMembers(ms: seq<ConsumerMessage>, k: string)
    ensures forall m | m in ForKey(ms, k) :: m in ms && m.key == k && m.decoded.Some?
    ensures (exists m :: m in ms && m.key == k && m.decoded.Some?) ==> ForKey(ms, k) != []
  {
    if ms != [] {
      ForKeyMembers(ms[..|ms| - 1], k);
    }
  }

  /** List by list and message by message: one that is decodable and has the key is
      taken once, and no other. */
  lemma ForKeySplits(a: seq<ConsumerMessage>, m: ConsumerMessage, b: seq<ConsumerMessage>, k: string)
    ensures ForKey(a + [m] + b, k) ==
            ForKey(a, k) + (if m.key == k && m.decoded.Some? then [m] else []) + ForKey(b, k)
    ensures ForKey([], k) == []
  {
    ForKeyConcat(a + [m], b, k);
    ForKeyConcat(a, [m], k);
    assert ForKey([m], k) == ForKey([], k) + if m.key == k && m.decoded.Some? then [m] else [];
  }

  lemma {:induction false} ForKeyNone(ms: seq<ConsumerMessage>, k: string)
    requires forall m | m in ms :: m.key != k
    ensures ForKey(ms, k) == []
  {
    if ms != [] {
      ForKeyNone(ms[..|ms| - 1], k);
    }
  }

  // ------------------------------------------------------------ chunking

  /** The buffer cut into full chunks and a rest. */
  function Chunks(buffer: seq<ConsumerMessage>): seq<seq<ConsumerMessage>> {
    if |buffer| == 0 then []
    else if |buffer| <= SPLIT then [buffer]
    else [buffer[..SPLIT]] + Chunks(buffer[SPLIT..])
  }

  /** The chunks concatenate back to the buffer; none is empty or over size, and
      only the last may be short. */
  lemma {:induction false} ChunksExact(buffer: seq<ConsumerMessage>)
    ensures Concat(Chunks(buffer)) == buffer
    ensures forall i | 0 <= i < |Chunks(buffer)| :: 1 <= |Chunks(buffer)[i]| <= 1000
    ensures forall i | 0 <= i < |Chunks(buffer)| - 1 :: |Chunks(buffer)[i]| == 1000
  {
    if |buffer| > SPLIT {
      ChunksExact(buffer[SPLIT..]);
      assert Chunks(buffer)[1..] == Chunks(buffer[SPLIT..]);
    } else if buffer != [] {
      assert Concat([buffer]) == buffer;
    }
  }

  lemma ChunksHead(buffer: seq<ConsumerMessage>)
    requires |buffer| >= SPLIT
    ensures Chunks(buffer) == [buffer[..SPLIT]] + Chunks(buffer[SPLIT..])
  {
    if |buffer| == SPLIT {
      assert buffer[..SPLIT] == buffer;
    }
  }

  lemma HeadFirst(head: seq<ConsumerMessage>, rest: seq<ConsumerMessage>)
    requires |head| == SPLIT
    ensures Chunks(head + rest) == [head] + Chunks(rest)
  {
    ChunksHead(head + rest);
    assert (head + rest)[..SPLIT] == head && (head + rest)[SPLIT..] == rest;
  }

  lemma {:induction false} ChunksAppend(full: seq<ConsumerMessage>, rest: seq<ConsumerMessage>, n: nat)
    requires |full| == n * SPLIT
    ensures Chunks(full + rest) == Chunks(full) + Chunks(rest)
  {
    if n == 0 {
      assert full + rest == rest;
    } else {
      var (head, tail) := (full[..SPLIT], full[SPLIT..]);
      ChunksAppend(tail, rest, n - 1);
      HeadFirst(head, tail);
      HeadFirst(head, tail + rest);
      assert full == head + tail && full + rest == head + (tail + rest);
    }
  }

  /** The ticker's loop over full chunks, and the rest after it. */
  method SplitBuffer(buffer: seq<ConsumerMessage>) returns (chunks: seq<seq<ConsumerMessage>>)
    ensures chunks == Chunks(buffer)
  {
    chunks := [];
    for i := 0 to |buffer| / SPLIT
      invariant i * SPLIT <= |buffer|
      invariant chunks == Chunks(buffer[..i * SPLIT])
    {
      var chunk := buffer[i * SPLIT..(i + 1) * SPLIT];
      ChunksAppend(buffer[..i * SPLIT], chunk, i);
      assert buffer[..(i + 1) * SPLIT] == buffer[..i * SPLIT] + chunk;
      chunks := chunks + [chunk];
    }
    var full := SPLIT * (|buffer| / SPLIT);
    assert buffer == buffer[..full] + buffer[full..];
    ChunksAppend(buffer[..full], buffer[full..], |buffer| / SPLIT);
    if |buffer| % SPLIT > 0 {
      chunks := chunks + [buffer[full..]];
    }
  }

  // ------------------------------------------------------------ grouping

  type Groups = map<string, seq<ConsumerMessage>>

  /** One more message in its group, unless it cannot be decoded. */
  function Add(groups: Groups, m: ConsumerMessage): Groups {
    if m.decoded.None? then groups
    else if m.key in groups then groups[m.key := groups[m.key] + [m]]
    else groups[m.key := [m]]
  }

  /** The groups of a chunk, message by message. */
  function Group(batch: seq<ConsumerMessage>): Groups {
    if batch == [] then map[] else Add(Group(batch[..|batch| - 1]), batch[|batch| - 1])
  }

  /** A key has a group exactly if it has a decodable message, and the group holds
      its decodable messages in order. */
  lemma {:induction false} GroupExact(batch: seq<ConsumerMessage>, k: string)
    ensures k in Group(batch) <==> ForKey(batch, k) != []
    ensures k in Group(batch) ==> Group(batch)[k] == ForKey(batch, k)
  {
    if batch != [] {
      GroupExact(batch[..|batch| - 1], k);
    }
  }

  /** The distributor's loop over a chunk. */
  method Aggregate(batch: seq<ConsumerMessage>) returns (groups: Groups)
    ensures groups == Group(batch)
  {
    groups := map[];
    for i := 0 to |batch|
      invariant groups == Group(batch[..i])
    {
      var m := batch[i];
      assert batch[..i + 1][..i] == batch[..i];
      if m.decoded.None? {
        continue;
      }
      if m.key in groups {
        groups := groups[m.key := groups[m.key] + [m]];
      } else {
        groups := groups[m.key := [m]];
      }
    }
    assert batch[..|batch|] == batch;
  }

  // ------------------------------------------------------- state machine

  /** The atomic steps. Arrive: a claim's reader takes one message. Tick: the
      ticker empties a buffer and cuts it. HandOff: the distributor takes a chunk.
      Send: it sends one of its groups. Work: a worker takes a value. */
  datatype Event = Arrive(p: nat, m: ConsumerMessage) | Tick(p: nat) | HandOff(p: nat) | Send(k: string) | Work(c: nat)

  predicate Shape(env: Env, s: State) {
    |s.claims| == env.partitions && |s.channels| == CHANNEL_NUM
  }

  predicate Enabled(env: Env, s: State, e: Event) {
    Shape(env, s) &&
    match e
    case Arrive(p, m) => p < |s.claims| && env.partitionOf(m.key) == p
    case Tick(p) => p < |s.claims| && s.claims[p].unsent == [] && s.claims[p].messages != []
    case HandOff(p) => p < |s.claims| && s.claims[p].unsent != [] && s.groups == map[]
    case Send(k) => k in s.groups && |s.channels[ChannelOf(env, k)]| < CHANNEL_CAPACITY
    case Work(c) => c < CHANNEL_NUM && s.channels[c] != []
  }

  function Step(env: Env, s: State, e: Event): (s': State)
    requires Enabled(env, s, e)
    ensures Shape(env, s')
  {
    match e
    case Arrive(p, m) =>
      if m.length == 0 then s
      else s.(claims := s.claims[p := s.claims[p].(messages := s.claims[p].messages + [m])], arrived := s.arrived + [m])
    case Tick(p) =>
      s.(claims := s.claims[p := Claim([], Chunks(s.claims[p].messages))])
    case HandOff(p) =>
      s.(claims := s.claims[p := s.claims[p].(unsent := s.claims[p].unsent[1..])],
         groups := Group(s.claims[p].unsent[0]))
    case Send(k) =>
      var c := ChannelOf(env, k);
      s.(channels := s.channels[c := s.channels[c] + [ChannelValue(k, s.groups[k])]], groups := s.groups - {k})
    case Work(c) =>
      s.(channels := s.channels[c := s.channels[c][1..]], handled := s.handled + [s.channels[c][0]])
  }

  function Initial(env: Env): State {
    State(seq(env.partitions, _ => Claim([], [])), map[], seq(CHANNEL_NUM, _ => []), [], [])
  }

  predicate Possible(env: Env, s: State, es: seq<Event>)
    decreases |es|
  {
    es == [] || (Enabled(env, s, es[0]) && Possible(env, Step(env, s, es[0]), es[1..]))
  }

  /** The state after a run: any events, in any interleaving, each enabled when it
      happens. */
  function Run(env: Env, s: State, es: seq<Event>): State
    requires Possible(env, s, es)
    decreases |es|
  {
    if es == [] then s else Run(env, Step(env, s, es[0]), es[1..])
  }

  lemma RunCons(env: Env, s: State, e: Event, rest: seq<Event>)
    requires Enabled(env, s, e) && Possible(env, Step(env, s, e), rest)
    ensures Possible(env, s, [e] + rest) && Run(env, s, [e] + rest) == Run(env, Step(env, s, e), rest)
  {
    assert ([e] + rest)[1..] == rest;
  }

  // ---------------------------------------------------------- invariants

  function Pending(groups: Groups, k: string): seq<ConsumerMessage> {
    if k in groups then groups[k] else []
  }

  /** Everything of one key, from what was handled last to what arrived last. */
  function InFlight(env: Env, s: State, k: string): seq<ConsumerMessage>
    requires Shape(env, s) && env.partitionOf(k) < env.partitions
  {
    var claim := s.claims[env.partitionOf(k)];
    Line(Carried(s.handled, k), Carried(s.channels[ChannelOf(env, k)], k), Pending(s.groups, k),
         ForKey(Concat(claim.unsent), k), ForKey(claim.messages, k))
  }

  /** Five places in a row. */
  function Line<T>(a: seq<T>, b: seq<T>, c: seq<T>, d: seq<T>, e: seq<T>): seq<T> {
    a + b + c + d + e
  }

  /** Moving something from the end of one place to the front of the next. */
  lemma LineShifts<T>(a: seq<T>, b: seq<T>, c: seq<T>, d: seq<T>, e: seq<T>, x: seq<T>)
    ensures Line(a + x, b, c, d, e) == Line(a, x + b, c, d, e)
    ensures Line(a, b + x, [], d, e) == Line(a, b, x, d, e)
    ensures Line(a, b, [], x + d, e) == Line(a, b, x, d, e)
    ensures Line(a, b, c, x, []) == Line(a, b, c, [], x)
    ensures Line(a, b, c, d, e + x) == Line(a, b, c, d, e) + x
  {
  }

  ghost predicate Conserves(env: Env, s: State, k: string)
    requires Shape(env, s) && env.partitionOf(k) < env.partitions
  {
    InFlight(env, s, k) == ForKey(s.arrived, k)
  }

  predicate OfPartition(env: Env, ms: seq<ConsumerMessage>, p: nat) {
    forall m | m in ms :: env.partitionOf(m.key) == p
  }

  /** A group holds only messages of its key, and at least one. */
  predicate GoodGroup(k: string, ms: seq<ConsumerMessage>) {
    ms != [] && forall m | m in ms :: m.key == k && m.decoded.Some?
  }

  predicate GoodClaim(env: Env, claim: Claim, p: nat) {
    && OfPartition(env, claim.messages, p) && OfPartition(env, Concat(claim.unsent), p)
    && forall i | 0 <= i < |claim.unsent| :: 1 <= |claim.unsent[i]| <= SPLIT
  }

  predicate GoodChannel(env: Env, vs: seq<ChannelValue>, c: nat) {
    && |vs| <= CHANNEL_CAPACITY
    && forall v | v in vs :: ChannelOf(env, v.uniqueKey) == c && GoodGroup(v.uniqueKey, v.list)
  }

  /** Where things are: messages in the claim of their key, values on the channel
      of their key, no channel over capacity, no chunk empty or over size. */
  ghost predicate Placed(env: Env, s: State) {
    && Shape(env, s)
    && (forall p | 0 <= p < |s.claims| :: GoodClaim(env, s.claims[p], p))
    && (forall c | 0 <= c < CHANNEL_NUM :: GoodChannel(env, s.channels[c], c))
    && (forall k | k in s.groups :: GoodGroup(k, s.groups[k]))
    && (forall v | v in s.handled :: GoodGroup(v.uniqueKey, v.list))
  }

  ghost predicate Inv(env: Env, s: State) {
    && GoodEnv(env)
    && Placed(env, s)
    && forall k :: Conserves(env, s, k)
  }

  lemma GroupIsGood(batch: seq<ConsumerMessage>, k: string)
    requires k in Group(batch)
    ensures GoodGroup(k, Group(batch)[k])
  {
  }

  lemma ConcatHead(chunks: seq<seq<ConsumerMessage>>)
    requires chunks != []
    ensures Concat(chunks) == chunks[0] + Concat(chunks[1..])
  {
  }

  lemma StepKeepsPlaced(env: Env, s: State, e: Event)
    requires Placed(env, s) && Enabled(env, s, e)
    ensures Placed(env, Step(env, s, e))
  {
    var s' := Step(env, s, e);
    match e
    case Arrive(p, m) =>
    case Tick(p) =>
      ChunksExact(s.claims[p].messages);
      assert GoodClaim(env, s'.claims[p], p) by { assert GoodClaim(env, s.claims[p], p); }
    case HandOff(p) =>
      assert GoodClaim(env, s.claims[p], p);
      ConcatHead(s.claims[p].unsent);
      assert GoodClaim(env, s'.claims[p], p);
      forall k | k in s'.groups ensures GoodGroup(k, s'.groups[k]) {
        GroupIsGood(s.claims[p].unsent[0], k);
      }
    case Send(k) =>
      var c := ChannelOf(env, k);
      assert GoodGroup(k, s.groups[k]) && GoodChannel(env, s.channels[c], c);
      assert GoodChannel(env, s'.channels[c], c);
    case Work(c) =>
      assert GoodChannel(env, s.channels[c], c);
      assert s.channels[c][0] in s.channels[c];
      assert GoodChannel(env, s'.channels[c], c);
  }

  /** A key of another partition has nothing in the next chunk of a claim. */
  lemma NotHere(env: Env, claim: Claim, p: nat, k: string)
    requires GoodClaim(env, claim, p) && claim.unsent != [] && env.partitionOf(k) != p
    ensures ForKey(claim.unsent[0], k) == []
  {
    var chunk := claim.unsent[0];
    ConcatHead(claim.unsent);
    assert forall m | m in chunk :: m in Concat(claim.unsent);
    ForKeyNone(chunk, k);
  }

  lemma ArriveConserves(env: Env, s: State, p: nat, m: ConsumerMessage, k: string)
    requires Placed(env, s) && Enabled(env, s, Arrive(p, m))
    requires env.partitionOf(k) < env.partitions && Conserves(env, s, k)
    ensures Conserves(env, Step(env, s, Arrive(p, m)), k)
  {
    if m.length != 0 {
      var claim := s.claims[env.partitionOf(k)];
      ForKeyConcat(s.arrived, [m], k);
      ForKeyConcat(s.claims[p].messages, [m], k);
      LineShifts(Carried(s.handled, k), Carried(s.channels[ChannelOf(env, k)], k), Pending(s.groups, k),
                 ForKey(Concat(claim.unsent), k), ForKey(claim.messages, k), ForKey([m], k));
      ForKeyMembers([m], k);
    }
  }

  lemma TickConserves(env: Env, s: State, p: nat, k: string)
    requires Placed(env, s) && Enabled(env, s, Tick(p))
    requires env.partitionOf(k) < env.partitions && Conserves(env, s, k)
    ensures Conserves(env, Step(env, s, Tick(p)), k)
  {
    ChunksExact(s.claims[p].messages);
    LineShifts(Carried(s.handled, k), Carried(s.channels[ChannelOf(env, k)], k), Pending(s.groups, k),
               [], [], ForKey(s.claims[p].messages, k));
  }

  lemma HandOffConserves(env: Env, s: State, p: nat, k: string)
    requires Placed(env, s) && Enabled(env, s, HandOff(p))
    requires env.partitionOf(k) < env.partitions && Conserves(env, s, k)
    ensures Conserves(env, Step(env, s, HandOff(p)), k)
  {
    var claim := s.claims[p];
    var (chunk, rest) := (claim.unsent[0], Concat(claim.unsent[1..]));
    GroupExact(chunk, k);
    assert Pending(Group(chunk), k) == ForKey(chunk, k);
    if env.partitionOf(k) == p {
      ConcatHead(claim.unsent);
      ForKeyConcat(chunk, rest, k);
      LineShifts(Carried(s.handled, k), Carried(s.channels[ChannelOf(env, k)], k), [],
                 ForKey(rest, k), ForKey(claim.messages, k), ForKey(chunk, k));
    } else {
      assert GoodClaim(env, claim, p);
      NotHere(env, claim, p, k);
    }
  }

  /** What a channel carries of a key after one value was put at its end. */
  lemma CarriedAfterSend(vs: seq<ChannelValue>, v: ChannelValue, k: string)
    ensures Carried(vs + [v], k) == if v.uniqueKey == k then Carried(vs, k) + v.list else Carried(vs, k)
  {
  }

  /** ... and after the value at its front was taken. */
  lemma CarriedAfterTake(vs: seq<ChannelValue>, k: string)
    requires vs != []
    ensures Carried(vs, k) == if vs[0].uniqueKey == k then vs[0].list + Carried(vs[1..], k) else Carried(vs[1..], k)
  {
    assert vs == [vs[0]] + vs[1..];
    CarriedConcat([vs[0]], vs[1..], k);
    CarriedOne(vs[0], k);
  }

  lemma SendConserves(env: Env, s: State, k': string, k: string)
    requires Enabled(env, s, Send(k'))
    requires env.partitionOf(k) < env.partitions && Conserves(env, s, k)
    ensures Conserves(env, Step(env, s, Send(k')), k)
  {
    var (list, own, c) := (s.groups[k'], ChannelOf(env, k), ChannelOf(env, k'));
    var (v, s') := (ChannelValue(k', list), Step(env, s, Send(k')));
    CarriedAfterSend(s.channels[c], v, k);
    assert s'.claims == s.claims && s'.handled == s.handled;
    assert s'.channels[own] == if own == c then s.channels[c] + [v] else s.channels[own];
    assert Pending(s'.groups, k) == if k == k' then [] else Pending(s.groups, k);
    if k == k' {
      var claim := s.claims[env.partitionOf(k)];
      LineShifts(Carried(s.handled, k), Carried(s.channels[own], k), [],
                 ForKey(Concat(claim.unsent), k), ForKey(claim.messages, k), list);
    }
  }

  lemma WorkConserves(env: Env, s: State, c: nat, k: string)
    requires Enabled(env, s, Work(c)) && ChannelOf(env, s.channels[c][0].uniqueKey) == c
    requires env.partitionOf(k) < env.partitions && Conserves(env, s, k)
    ensures Conserves(env, Step(env, s, Work(c)), k)
  {
    var (v, rest, own) := (s.channels[c][0], s.channels[c][1..], ChannelOf(env, k));
    var s' := Step(env, s, Work(c));
    CarriedAfterSend(s.handled, v, k);
    CarriedAfterTake(s.channels[c], k);
    assert s'.claims == s.claims && s'.groups == s.groups && s'.handled == s.handled + [v];
    assert s'.channels[own] == if own == c then rest else s.channels[own];
    if v.uniqueKey == k {
      var claim := s.claims[env.partitionOf(k)];
      LineShifts(Carried(s.handled, k), Carried(rest, k), Pending(s.groups, k),
                 ForKey(Concat(claim.unsent), k), ForKey(claim.messages, k), v.list);
    }
  }

  /** No step loses, repeats or reorders a message of any key. */
  lemma StepConserves(env: Env, s: State, e: Event, k: string)
    requires Placed(env, s) && Enabled(env, s, e)
    requires env.partitionOf(k) < env.partitions && Conserves(env, s, k)
    ensures Conserves(env, Step(env, s, e), k)
  {
    match e
    case Arrive(p, m) => ArriveConserves(env, s, p, m, k);
    case Tick(p) => TickConserves(env, s, p, k);
    case HandOff(p) => HandOffConserves(env, s, p, k);
    case Send(k') => SendConserves(env, s, k', k);
    case Work(c) =>
      assert GoodChannel(env, s.channels[c], c) && s.channels[c][0] in s.channels[c];
      WorkConserves(env, s, c, k);
  }

  lemma StepKeepsInv(env: Env, s: State, e: Event)
    requires Inv(env, s) && Enabled(env, s, e)
    ensures Inv(env, Step(env, s, e))
  {
    StepKeepsPlaced(env, s, e);
    forall k ensures Conserves(env, Step(env, s, e), k) {
      StepConserves(env, s, e, k);
    }
  }

  lemma InitialInv(env: Env)
    requires GoodEnv(env)
    ensures Inv(env, Initial(env))
  {
  }

  lemma {:induction false} RunKeepsInv(env: Env, s: State, es: seq<Event>)
    requires Inv(env, s) && Possible(env, s, es)
    ensures Inv(env, Run(env, s, es))
    decreases |es|
  {
    if es != [] {
      StepKeepsInv(env, s, es[0]);
      RunKeepsInv(env, Step(env, s, es[0]), es[1..]);
    }
  }

  // --------------------------------------------------------- whole runs

  /** The non-empty messages read during a run. */
  function Arrivals(es: seq<Event>): seq<ConsumerMessage> {
    if es == [] then []
    else (if es[0].Arrive? && es[0].m.length != 0 then [es[0].m] else []) + Arrivals(es[1..])
  }

  /** Part by part and event by event: every message read that is not empty, once, in
      the order they are read. */
  lemma {:induction false} ArrivalsSplit(a: seq<Event>, e: Event, b: seq<Event>)
    ensures Arrivals(a + [e] + b) ==
            Arrivals(a) + (if e.Arrive? && e.m.length != 0 then [e.m] else []) + Arrivals(b)
    ensures Arrivals([]) == []
  {
    var all := a + [e] + b;
    if a == [] {
      assert all[1..] == b;
    } else {
      ArrivalsSplit(a[1..], e, b);
      assert all[0] == a[0] && all[1..] == a[1..] + [e] + b;
    }
  }

  /** In every run: a hundred channels with at most fifty values each, every value on
      the channel its key hashes to, and chunks of at most a thousand messages. */
  lemma RunBounded(env: Env, es: seq<Event>)
    requires GoodEnv(env) && Possible(env, Initial(env), es)
    ensures var s := Run(env, Initial(env), es);
            && |s.channels| == 100
            && (forall c | 0 <= c < 100 :: |s.channels[c]| <= 50
                  && forall v | v in s.channels[c] :: env.hashOf(v.uniqueKey) % 100 == c && v.list != [])
            && forall claim | claim in s.claims :: forall chunk | chunk in claim.unsent :: 1 <= |chunk| <= 1000
  {
    InitialInv(env);
    RunKeepsInv(env, Initial(env), es);
    var s := Run(env, Initial(env), es);
    forall c | 0 <= c < 100
      ensures |s.channels[c]| <= 50
      ensures forall v | v in s.channels[c] :: env.hashOf(v.uniqueKey) % 100 == c && v.list != []
    {
      assert GoodChannel(env, s.channels[c], c);
      assert forall v | v in s.channels[c] :: ChannelOf(env, v.uniqueKey) == c && GoodGroup(v.uniqueKey, v.list);
    }
    forall claim | claim in s.claims ensures forall chunk | chunk in claim.unsent :: 1 <= |chunk| <= 1000 {
      var p :| 0 <= p < |s.claims| && s.claims[p] == claim;
      assert GoodClaim(env, s.claims[p], p);
    }
  }

  lemma {:induction false} RunArrived(env: Env, s: State, es: seq<Event>)
    requires Possible(env, s, es)
    ensures Run(env, s, es).arrived == s.arrived + Arrivals(es)
    decreases |es|
  {
    if es != [] {
      RunArrived(env, Step(env, s, es[0]), es[1..]);
    }
  }

  predicate Quiescent(s: State) {
    && (forall claim | claim in s.claims :: claim == Claim([], []))
    && s.groups == map[]
    && forall vs | vs in s.channels :: vs == []
  }

  /** In one state: handled is a prefix of what was read, and all of it at rest. */
  lemma HandledPrefix(env: Env, s: State, k: string)
    requires Inv(env, s)
    ensures Carried(s.handled, k) <= ForKey(s.arrived, k)
    ensures Quiescent(s) ==> Carried(s.handled, k) == ForKey(s.arrived, k)
  {
    assert Conserves(env, s, k);
    assert GoodEnv(env) && env.partitionOf(k) < |s.claims|;
    assert s.claims[env.partitionOf(k)] in s.claims && s.channels[ChannelOf(env, k)] in s.channels;
  }

  /** Order and conservation per key, in every interleaving: what the workers have
      handled of a key is a prefix of what was read of it, and all of it once
      nothing is under way. */
  lemma HandledInOrder(env: Env, es: seq<Event>, k: string)
    requires GoodEnv(env) && Possible(env, Initial(env), es)
    ensures var s := Run(env, Initial(env), es);
            && Carried(s.handled, k) <= ForKey(Arrivals(es), k)
            && (Quiescent(s) ==> Carried(s.handled, k) == ForKey(Arrivals(es), k))
  {
    InitialInv(env);
    RunKeepsInv(env, Initial(env), es);
    RunArrived(env, Initial(env), es);
    assert Run(env, Initial(env), es).arrived == Arrivals(es);
    HandledPrefix(env, Run(env, Initial(env), es), k);
  }

  /** The pipeline never gets stuck: while anything is under way, some step other
      than a new arrival is enabled. */
  lemma NeverStuck(env: Env, s: State) returns (e: Event)
    requires Inv(env, s) && !Quiescent(s)
    ensures !e.Arrive? && Enabled(env, s, e)
  {
    if k :| k in s.groups {
      var c := ChannelOf(env, k);
      e := if |s.channels[c]| < CHANNEL_CAPACITY then Send(k) else Work(c);
    } else if vs :| vs in s.channels && vs != [] {
      var c :| 0 <= c < |s.channels| && s.channels[c] == vs;
      e := Work(c);
    } else {
      var claim :| claim in s.claims && claim != Claim([], []);
      var p :| 0 <= p < |s.claims| && s.claims[p] == claim;
      e := if claim.unsent != [] then HandOff(p) else Tick(p);
    }
  }

  function Sum(ns: seq<nat>): nat {
    if ns == [] then 0 else ns[0] + Sum(ns[1..])
  }

  lemma {:induction false} SumUpdate(ns: seq<nat>, i: nat, n: nat)
    requires i < |ns|
    ensures Sum(ns[i := n]) + ns[i] == Sum(ns) + n
  {
    if i > 0 {
      SumUpdate(ns[1..], i - 1, n);
      assert ns[i := n][1..] == ns[1..][i - 1 := n];
    } else {
      assert ns[i := n][1..] == ns[1..];
    }
  }

  function Buffered(s: State): seq<nat> {
    seq(|s.claims|, p requires 0 <= p < |s.claims| => |s.claims[p].messages|)
  }

  function Unsent(s: State): seq<nat> {
    seq(|s.claims|, p requires 0 <= p < |s.claims| => |s.claims[p].unsent|)
  }

  function Queued(s: State): seq<nat> {
    seq(|s.channels|, c requires 0 <= c < |s.channels| => |s.channels[c]|)
  }

  /** What is left to do, stage by stage. */
  predicate LessLeft(s': State, s: State) {
    || Sum(Buffered(s')) < Sum(Buffered(s))
    || (Sum(Buffered(s')) == Sum(Buffered(s)) &&
        (|| Sum(Unsent(s')) < Sum(Unsent(s))
         || (Sum(Unsent(s')) == Sum(Unsent(s)) &&
             (|| |s'.groups| < |s.groups|
              || (|s'.groups| == |s.groups| && Sum(Queued(s')) < Sum(Queued(s)))))))
  }

  lemma ClaimLessLeft(env: Env, s: State, p: nat)
    requires Enabled(env, s, Tick(p)) || Enabled(env, s, HandOff(p))
    ensures Enabled(env, s, Tick(p)) ==> LessLeft(Step(env, s, Tick(p)), s)
    ensures Enabled(env, s, HandOff(p)) ==> LessLeft(Step(env, s, HandOff(p)), s)
  {
    SumUpdate(Buffered(s), p, 0);
    if Enabled(env, s, Tick(p)) {
      assert Buffered(Step(env, s, Tick(p))) == Buffered(s)[p := 0];
    } else {
      var s' := Step(env, s, HandOff(p));
      SumUpdate(Unsent(s), p, |s.claims[p].unsent| - 1);
      assert Buffered(s') == Buffered(s);
      assert Unsent(s') == Unsent(s)[p := |s.claims[p].unsent| - 1];
    }
  }

  lemma WorkLessLeft(env: Env, s: State, c: nat)
    requires Enabled(env, s, Work(c))
    ensures LessLeft(Step(env, s, Work(c)), s)
  {
    var s' := Step(env, s, Work(c));
    SumUpdate(Queued(s), c, |s.channels[c]| - 1);
    assert Buffered(s') == Buffered(s) && Unsent(s') == Unsent(s);
    assert Queued(s') == Queued(s)[c := |s.channels[c]| - 1];
  }

  lemma StepLessLeft(env: Env, s: State, e: Event)
    requires Enabled(env, s, e) && !e.Arrive?
    ensures LessLeft(Step(env, s, e), s)
  {
    match e
    case Tick(p) => ClaimLessLeft(env, s, p);
    case HandOff(p) => ClaimLessLeft(env, s, p);
    case Send(k) =>
      var s' := Step(env, s, e);
      assert Buffered(s') == Buffered(s) && Unsent(s') == Unsent(s);
      assert s.groups.Keys == s'.groups.Keys + {k};
    case Work(c) => WorkLessLeft(env, s, c);
  }

  /** From every state that can be reached the steps under way can be finished,
      and then every message read so far has been handled, per key in order. */
  lemma {:induction false} Drains(env: Env, s: State) returns (es: seq<Event>)
    requires Inv(env, s)
    ensures Possible(env, s, es) && (forall e | e in es :: !e.Arrive?)
    ensures Quiescent(Run(env, s, es)) && Inv(env, Run(env, s, es))
    ensures forall k :: Carried(Run(env, s, es).handled, k) == ForKey(s.arrived, k)
    decreases Sum(Buffered(s)), Sum(Unsent(s)), |s.groups|, Sum(Queued(s))
  {
    if Quiescent(s) {
      es := [];
      forall k ensures Carried(s.handled, k) == ForKey(s.arrived, k) {
        HandledPrefix(env, s, k);
      }
    } else {
      var e := NeverStuck(env, s);
      StepLessLeft(env, s, e);
      StepKeepsInv(env, s, e);
      var rest := Drains(env, Step(env, s, e));
      es := [e] + rest;
      assert es[1..] == rest;
    }
  }

  // ------------------------------------------------------------- service

  /** The consumer: partitions, distributor and worker channels. */
  class HistoryConsumer {
    const env: Env
    var claims: seq<Claim>
    var groups: Groups
    const chArrays: array<seq<ChannelValue>>
    ghost var handled: seq<ChannelValue>
    ghost var arrived: seq<ConsumerMessage>

    ghost function View(): State
      reads this, chArrays
    {
      State(claims, groups, chArrays[..], handled, arrived)
    }

    ghost predicate Valid()
      reads this, chArrays
    {
      Inv(env, View())
    }

    constructor (env: Env)
      requires GoodEnv(env)
      ensures Valid() && fresh(chArrays) && this.env == env && View() == Initial(env)
    {
      this.env := env;
      claims, groups := seq(env.partitions, _ => Claim([], [])), map[];
      handled, arrived := [], [];
      chArrays := new seq<ChannelValue>[CHANNEL_NUM](_ => []);
      new;
      InitialInv(env);
      assert View() == Initial(env);
    }

    /** ConsumeClaim's reading loop, one message; a message without a value is
        skipped. */
    method Consume(p: nat, m: ConsumerMessage)
      requires Valid() && Enabled(env, View(), Arrive(p, m))
      modifies this
      ensures Valid() && View() == Step(env, old(View()), Arrive(p, m))
      ensures m.length > 0 ==> claims[p].messages == old(claims[p].messages) + [m] && arrived == old(arrived) + [m]
      ensures m.length == 0 ==> View() == old(View())
    {
      StepKeepsInv(env, View(), Arrive(p, m));
      if m.length == 0 {
        return;
      }
      claims := claims[p := claims[p].(messages := claims[p].messages + [m])];
      arrived := arrived + [m];
    }

    /** The ticker: copies and clears the buffer, then cuts the copy. */
    method Flush(p: nat)
      requires Valid() && p < |claims| && claims[p].unsent == []
      modifies this
      ensures Valid()
      ensures View() == if old(claims[p].messages) == [] then old(View()) else Step(env, old(View()), Tick(p))
      ensures claims[p].messages == [] && Concat(claims[p].unsent) == old(claims[p].messages)
    {
      if |claims[p].messages| == 0 {
        return;
      }
      StepKeepsInv(env, View(), Tick(p));
      var buffer := claims[p].messages;
      var chunks := SplitBuffer(buffer);
      ChunksExact(buffer);
      claims := claims[p := Claim([], chunks)];
    }

    /** The distributor receives a chunk and groups it. */
    method Distribute(p: nat)
      requires Valid() && Enabled(env, View(), HandOff(p))
      modifies this
      ensures Valid() && View() == Step(env, old(View()), HandOff(p))
    {
      StepKeepsInv(env, View(), HandOff(p));
      groups := Aggregate(claims[p].unsent[0]);
      claims := claims[p := claims[p].(unsent := claims[p].unsent[1..])];
    }

    /** The distributor sends one group to the channel of its key. */
    method SendGroup(k: string)
      requires Valid() && Enabled(env, View(), Send(k))
      modifies this, chArrays
      ensures Valid() && View() == Step(env, old(View()), Send(k))
      ensures var c := env.hashOf(k) % 100;
              chArrays[..] == old(chArrays[..])[c := old(chArrays[c]) + [ChannelValue(k, old(groups[k]))]]
    {
      StepKeepsInv(env, View(), Send(k));
      var channelID := env.hashOf(k) % CHANNEL_NUM;
      chArrays[channelID] := chArrays[channelID] + [ChannelValue(k, groups[k])];
      groups := groups - {k};
    }

    /** A worker takes the next value of its channel. */
    method Receive(c: nat) returns (v: ChannelValue)
      requires Valid() && Enabled(env, View(), Work(c))
      modifies this, chArrays
      ensures Valid() && View() == Step(env, old(View()), Work(c))
      ensures v == old(chArrays[c])[0] && GoodGroup(v.uniqueKey, v.list) && env.hashOf(v.uniqueKey) % 100 == c
      ensures chArrays[..] == old(chArrays[..])[c := old(chArrays[c])[1..]] && handled == old(handled) + [v]
    {
      StepKeepsInv(env, View(), Work(c));
      assert GoodChannel(env, View().channels[c], c) && chArrays[c][0] in View().channels[c];
      v := chArrays[c][0];
      chArrays[c] := chArrays[c][1..];
      handled := handled + [v];
    }
  }
}
