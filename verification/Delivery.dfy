/** What a run of the whole message-transfer service guarantees about filing: the
    order the pipeline keeps and the split a worker makes, put together. */
module Delivery {
  import opened Messages
  import opened ConversationId
  import Pipeline
  import Transfer

  /** The messages of a worker's batch. */
  function Decoded(list: seq<Pipeline.ConsumerMessage>): (ms: seq<Msg>)
    requires forall m | m in list :: m.decoded.Some?
    ensures |ms| == |list| && forall i | 0 <= i < |ms| :: ms[i] == list[i].decoded.value
  {
    seq(|list|, i requires 0 <= i < |list| => assert list[i] in list; list[i].decoded.value)
  }

  /** What the producer ensures: a message is queued under its own key, which is
      not empty. */
  predicate Produced(arrived: seq<Pipeline.ConsumerMessage>) {
    forall m | m in arrived && m.decoded.Some? :: m.key == UniqueKey(m.decoded.value) != ""
  }

  /** More than that: under each key there is one conversation only. */
  predicate OneConversationPerKey(arrived: seq<Pipeline.ConsumerMessage>) {
    forall a, b | a in arrived && b in arrived && a.key == b.key && a.decoded.Some? && b.decoded.Some? ::
      Transfer.OneConversation(a.decoded.value, b.decoded.value)
  }

  lemma {:induction false} CarriedHas(vs: seq<Pipeline.ChannelValue>, v: Pipeline.ChannelValue)
    requires v in vs
    ensures forall m | m in v.list :: m in Pipeline.Carried(vs, v.uniqueKey)
  {
    if v != vs[|vs| - 1] {
      CarriedHas(vs[..|vs| - 1], v);
    }
  }

  /** Every message handled was read, under the key of its batch. */
  lemma HandledArrived(env: Pipeline.Env, s: Pipeline.State, v: Pipeline.ChannelValue)
    requires Pipeline.Inv(env, s) && v in s.handled
    ensures forall m | m in v.list :: m in s.arrived && m.key == v.uniqueKey && m.decoded.Some?
    ensures v.list != []
  {
    var k := v.uniqueKey;
    CarriedHas(s.handled, v);
    assert Pipeline.Conserves(env, s, k) && env.partitionOf(k) < |s.claims|;
    Pipeline.ForKeyMembers(s.arrived, k);
    assert forall m | m in Pipeline.Carried(s.handled, k) :: m in Pipeline.InFlight(env, s, k);
  }

  /** The batches of a run hold messages that were read, under one key each. */
  lemma HandledInRun(env: Pipeline.Env, es: seq<Pipeline.Event>, v: Pipeline.ChannelValue)
    requires Pipeline.GoodEnv(env) && Pipeline.Possible(env, Pipeline.Initial(env), es)
    requires v in Pipeline.Run(env, Pipeline.Initial(env), es).handled
    ensures v.list != []
    ensures forall m | m in v.list :: m in Pipeline.Arrivals(es) && m.key == v.uniqueKey && m.decoded.Some?
  {
    Pipeline.InitialInv(env);
    Pipeline.RunKeepsInv(env, Pipeline.Initial(env), es);
    Pipeline.RunArrived(env, Pipeline.Initial(env), es);
    assert Pipeline.Run(env, Pipeline.Initial(env), es).arrived == Pipeline.Arrivals(es);
    HandledArrived(env, Pipeline.Run(env, Pipeline.Initial(env), es), v);
  }

  /** In every interleaving: exactly which messages, copies included, a worker files
      under the identifier of their own conversation; in terms of the users if no
      ID holds an underscore. */
  lemma HandledIsFiledExactly(env: Pipeline.Env, es: seq<Pipeline.Event>, v: Pipeline.ChannelValue,
                              k: Transfer.Kind, item: Transfer.Item)
    requires Pipeline.GoodEnv(env) && Pipeline.Possible(env, Pipeline.Initial(env), es)
    requires Produced(Pipeline.Arrivals(es))
    requires v in Pipeline.Run(env, Pipeline.Initial(env), es).handled && !k.Modified?
    ensures v.list != [] && forall m | m in v.list :: m.decoded.Some?
    ensures var ms := Decoded(v.list);
            item in Transfer.ListOf(ms, |ms|, k) ==>
              && item.i < |ms|
              && var (a, m) := (ms[0], ms[item.i]);
              && (IDByMsg(Transfer.ItemVal(ms, item)) == Transfer.FiledUnder(k, a) <==> Transfer.FiledRight(k, a, m))
              && (PlainIDs(a) && PlainIDs(m) ==>
                    (Transfer.FiledRight(k, a, m) <==>
                     if k.StorageMsg? || k.NotStorageMsg?
                     then m.sessionType == a.sessionType &&
                          (a.sessionType == NOTIFICATION_CHAT ==> m.sendID == a.sendID)
                     else a.sessionType == SUPER_GROUP_CHAT || Direction(m) == Direction(a)))
  {
    HandledInRun(env, es, v);
    var ms := Decoded(v.list);
    forall m | m in ms ensures UniqueKey(m) == v.uniqueKey != "" {
      var i :| 0 <= i < |ms| && ms[i] == m;
      assert v.list[i] in v.list;
    }
    assert ms[0] in ms;
    if item in Transfer.ListOf(ms, |ms|, k) {
      Transfer.FilingByKey(ms, k, item);
      var (a, m) := (ms[0], ms[item.i]);
      assert m in ms;
      FilingByWriting(a, m);
      if PlainIDs(a) && PlainIDs(m) {
        ChatFilingExact(a, m);
        NotificationFilingExact(a, m);
      }
    }
  }

  /** If each key holds one conversation, everything is filed right. */
  lemma HandledIsFiledRight(env: Pipeline.Env, es: seq<Pipeline.Event>, v: Pipeline.ChannelValue,
                            k: Transfer.Kind, item: Transfer.Item)
    requires Pipeline.GoodEnv(env) && Pipeline.Possible(env, Pipeline.Initial(env), es)
    requires OneConversationPerKey(Pipeline.Arrivals(es))
    requires v in Pipeline.Run(env, Pipeline.Initial(env), es).handled && !k.Modified?
    ensures v.list != [] && forall m | m in v.list :: m.decoded.Some?
    ensures var ms := Decoded(v.list);
            item in Transfer.ListOf(ms, |ms|, k) ==>
              item.i < |ms| && IDByMsg(Transfer.ItemVal(ms, item)) == Transfer.FiledUnder(k, ms[0])
  {
    HandledInRun(env, es, v);
    var ms := Decoded(v.list);
    forall m | m in ms ensures Transfer.OneConversation(ms[0], m) {
      var i :| 0 <= i < |ms| && ms[i] == m;
      assert v.list[0] in v.list && v.list[i] in v.list;
    }
    if item in Transfer.ListOf(ms, |ms|, k) {
      Transfer.FilingAgrees(ms, k, item);
    }
  }

  const CHAT := Msg("a", "b", "", SINGLE_CHAT, 101, None)
  const NOTE := Msg("a", "b", "", NOTIFICATION_CHAT, 101, None)
  const READ_CHAT := Pipeline.ConsumerMessage("a_b", 1, Some(CHAT))
  const READ_NOTE := Pipeline.ConsumerMessage("a_b", 1, Some(NOTE))

  function OnePartition(): Pipeline.Env {
    Pipeline.Env(1, _ => 0, _ => 0)
  }

  /** Both messages in the buffer of the one claim. */
  function BothRead(): Pipeline.State {
    Pipeline.Initial(OnePartition()).(claims := [Pipeline.Claim([READ_CHAT, READ_NOTE], [])],
                                      arrived := [READ_CHAT, READ_NOTE])
  }

  lemma ReadBoth()
    ensures var (env, s) := (OnePartition(), Pipeline.Initial(OnePartition()));
            && Pipeline.Enabled(env, s, Pipeline.Arrive(0, READ_CHAT))
            && var s1 := Pipeline.Step(env, s, Pipeline.Arrive(0, READ_CHAT));
            && Pipeline.Enabled(env, s1, Pipeline.Arrive(0, READ_NOTE))
            && Pipeline.Step(env, s1, Pipeline.Arrive(0, READ_NOTE)) == BothRead()
  {
    var (env, s) := (OnePartition(), Pipeline.Initial(OnePartition()));
    var s1 := Pipeline.Step(env, s, Pipeline.Arrive(0, READ_CHAT));
    assert s1.claims == [Pipeline.Claim([READ_CHAT], [])] && s1.arrived == [READ_CHAT];
    var s2 := Pipeline.Step(env, s1, Pipeline.Arrive(0, READ_NOTE));
    assert s2.claims == BothRead().claims && s2.arrived == BothRead().arrived;
  }

  /** Both in the one group of a chunk. */
  function BothGrouped(): Pipeline.State {
    BothRead().(claims := [Pipeline.Claim([], [])], groups := map["a_b" := [READ_CHAT, READ_NOTE]])
  }

  lemma GroupBoth()
    ensures var (env, s) := (OnePartition(), BothRead());
            && Pipeline.Enabled(env, s, Pipeline.Tick(0))
            && var s1 := Pipeline.Step(env, s, Pipeline.Tick(0));
            && Pipeline.Enabled(env, s1, Pipeline.HandOff(0))
            && Pipeline.Step(env, s1, Pipeline.HandOff(0)) == BothGrouped()
  {
    var (env, chunk) := (OnePartition(), [READ_CHAT, READ_NOTE]);
    var s1 := Pipeline.Step(env, BothRead(), Pipeline.Tick(0));
    assert s1.claims == [Pipeline.Claim([], [chunk])];
    assert chunk[..1] == [READ_CHAT] && [READ_CHAT][..0] == [];
    assert Pipeline.Group([READ_CHAT]) == map["a_b" := [READ_CHAT]];
    assert [READ_CHAT] + [READ_NOTE] == chunk;
    assert Pipeline.Group(chunk) == Pipeline.Add(map["a_b" := [READ_CHAT]], READ_NOTE);
    assert s1.claims[0].unsent[1..] == [];
    var s2 := Pipeline.Step(env, s1, Pipeline.HandOff(0));
    assert s2.claims == BothGrouped().claims && s2.groups == BothGrouped().groups;
  }

  lemma HandleBoth()
    ensures var (env, s, v) := (OnePartition(), BothGrouped(), Pipeline.ChannelValue("a_b", [READ_CHAT, READ_NOTE]));
            && Pipeline.Enabled(env, s, Pipeline.Send("a_b"))
            && var s1 := Pipeline.Step(env, s, Pipeline.Send("a_b"));
            && Pipeline.Enabled(env, s1, Pipeline.Work(0)) && Pipeline.Step(env, s1, Pipeline.Work(0)).handled == [v]
  {
    var (env, s, v) := (OnePartition(), BothGrouped(), Pipeline.ChannelValue("a_b", [READ_CHAT, READ_NOTE]));
    assert Pipeline.ChannelOf(env, "a_b") == 0;
    var s1 := Pipeline.Step(env, s, Pipeline.Send("a_b"));
    assert s1.channels[0] == [v];
  }

  /** A run that reads both and handles them in one batch. */
  lemma MixedRun() returns (es: seq<Pipeline.Event>)
    ensures var (env, both) := (OnePartition(), [READ_CHAT, READ_NOTE]);
            && Pipeline.Possible(env, Pipeline.Initial(env), es) && Pipeline.Arrivals(es) == both
            && Pipeline.Run(env, Pipeline.Initial(env), es).handled == [Pipeline.ChannelValue("a_b", both)]
  {
    var env := OnePartition();
    ReadBoth();
    GroupBoth();
    HandleBoth();
    var s0 := Pipeline.Initial(env);
    var s1 := Pipeline.Step(env, s0, Pipeline.Arrive(0, READ_CHAT));
    var s3 := Pipeline.Step(env, BothRead(), Pipeline.Tick(0));
    var s5 := Pipeline.Step(env, BothGrouped(), Pipeline.Send("a_b"));
    Pipeline.RunCons(env, s5, Pipeline.Work(0), []);
    es := [Pipeline.Work(0)] + [];
    Pipeline.RunCons(env, BothGrouped(), Pipeline.Send("a_b"), es);
    es := [Pipeline.Send("a_b")] + es;
    Pipeline.RunCons(env, s3, Pipeline.HandOff(0), es);
    es := [Pipeline.HandOff(0)] + es;
    Pipeline.RunCons(env, BothRead(), Pipeline.Tick(0), es);
    es := [Pipeline.Tick(0)] + es;
    Pipeline.RunCons(env, s1, Pipeline.Arrive(0, READ_NOTE), es);
    es := [Pipeline.Arrive(0, READ_NOTE)] + es;
    Pipeline.RunCons(env, s0, Pipeline.Arrive(0, READ_CHAT), es);
    es := [Pipeline.Arrive(0, READ_CHAT)] + es;
    Pipeline.RunArrived(env, s0, es);
  }

  /** A pair's chat and its notification session can share a batch, and then a
      message is filed under the identifier of another conversation. */
  lemma SharedBatchMisfiled() returns (es: seq<Pipeline.Event>, v: Pipeline.ChannelValue)
    ensures var env := OnePartition();
            && Pipeline.GoodEnv(env) && Pipeline.Possible(env, Pipeline.Initial(env), es)
            && Produced(Pipeline.Arrivals(es)) && v in Pipeline.Run(env, Pipeline.Initial(env), es).handled
    ensures forall m | m in v.list :: m.decoded.Some?
    ensures var ms := Decoded(v.list);
            && |ms| == 2 && Transfer.Original(1) in Transfer.ListOf(ms, 2, Transfer.StorageMsg)
            && Transfer.FiledUnder(Transfer.StorageMsg, ms[0]) == "si_a_b"
            && IDByMsg(Transfer.ItemVal(ms, Transfer.Original(1))) == "sn_a_b"
  {
    es := MixedRun();
    v := Pipeline.ChannelValue("a_b", [READ_CHAT, READ_NOTE]);
    Transfer.MixedBatch();
    assert Decoded(v.list) == [CHAT, NOTE];
  }
}
