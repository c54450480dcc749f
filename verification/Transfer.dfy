/** How a worker of the message-transfer service splits a batch of messages into
    stored and unstored chat messages and notifications, and under which
    conversation it files each of them. Option tables are shared by reference:
    a notification that is also sent as a message is cloned, and the table of the
    original is rewritten in place. */
module Transfer {
  import opened Messages
  import opened ConversationId

  // ----------------------------------------------------- option tables

  class OptionTable {
    var entries: Options

    constructor (entries: Options)
      ensures this.entries == entries
    {
      this.entries := entries;
    }
  }

  function Apply(options: Options, settings: seq<(string, bool)>): Options {
    if settings == [] then options
    else Apply(options, settings[..|settings| - 1])[settings[|settings| - 1].0 := settings[|settings| - 1].1]
  }

  lemma ApplyOne(options: Options, a: (string, bool))
    ensures Apply(options, [a]) == options[a.0 := a.1]
  {
  }

  lemma ApplyTwo(options: Options, a: (string, bool), b: (string, bool))
    ensures Apply(options, [a]) == options[a.0 := a.1]
    ensures Apply(options, [a, b]) == options[a.0 := a.1][b.0 := b.1]
  {
  }

  /** Applies the settings to the given table itself, and returns that table. */
  method WithOptions(t: OptionTable, settings: seq<(string, bool)>) returns (r: OptionTable)
    modifies t
    ensures r == t && t.entries == Apply(old(t.entries), settings)
  {
    for i := 0 to |settings|
      invariant t.entries == Apply(old(t.entries), settings[..i])
    {
      t.entries := t.entries[settings[i].0 := settings[i].1];
      assert settings[..i + 1][..i] == settings[..i];
    }
    assert settings[..|settings|] == settings;
    r := t;
  }

  /** The table of a message made from a notification starts empty. */
  method NewMsgOptions() returns (t: OptionTable)
    ensures fresh(t) && t.entries == map[]
  {
    var options: Options := map[];
    options := options[IS_OFFLINE_PUSH := false];
    t := new OptionTable(map[]);
  }

  const OPTION_KEYS: set<string> := {
    IS_NOT_NOTIFICATION, IS_SEND_MSG, IS_HISTORY, IS_PERSISTENT, IS_OFFLINE_PUSH, IS_UNREAD_COUNT,
    IS_CONVERSATION_UPDATE, IS_SENDER_SYNC, IS_NOT_PRIVATE, IS_SENDER_CONVERSATION_UPDATE, IS_REACTION_FROM_CACHE
  }

  method NewOptions() returns (t: OptionTable)
    ensures fresh(t) && t.entries == map k | k in OPTION_KEYS :: k == IS_SENDER_SYNC
  {
    t := new OptionTable(map[]);
    t.entries := t.entries[IS_NOT_NOTIFICATION := false][IS_SEND_MSG := false][IS_HISTORY := false];
    t.entries := t.entries[IS_PERSISTENT := false][IS_OFFLINE_PUSH := false][IS_UNREAD_COUNT := false];
    t.entries := t.entries[IS_CONVERSATION_UPDATE := false][IS_SENDER_SYNC := true][IS_NOT_PRIVATE := false];
    t.entries := t.entries[IS_SENDER_CONVERSATION_UPDATE := false][IS_REACTION_FROM_CACHE := false];
  }

  const RELIABLE_NOTIFICATION_NO_MSG := 2

  datatype NotificationConf = NotificationConf(
    isSendMsg: bool, reliabilityLevel: int, unreadCount: bool, offlinePush: bool)

  /** What a notification configuration asks for, key by key. */
  predicate Configures(cfg: NotificationConf, options: Options) {
    && options.Keys == OPTION_KEYS
    && forall k | k in options :: options[k] ==
        if k == IS_SEND_MSG then cfg.isSendMsg
        else if k == IS_HISTORY || k == IS_PERSISTENT then cfg.reliabilityLevel == RELIABLE_NOTIFICATION_NO_MSG
        else if k == IS_UNREAD_COUNT then cfg.unreadCount
        else if k == IS_OFFLINE_PUSH then cfg.offlinePush
        else k == IS_SENDER_SYNC
  }

  method GetOptionsByNotification(cfg: NotificationConf) returns (t: OptionTable)
    ensures fresh(t) && Configures(cfg, t.entries)
  {
    t := NewOptions();
    if cfg.unreadCount {
      ApplyOne(t.entries, (IS_UNREAD_COUNT, true));
      t := WithOptions(t, [(IS_UNREAD_COUNT, true)]);
    }
    if cfg.offlinePush {
      ApplyOne(t.entries, (IS_OFFLINE_PUSH, true));
      t := WithOptions(t, [(IS_OFFLINE_PUSH, true)]);
    }
    if cfg.reliabilityLevel == RELIABLE_NOTIFICATION_NO_MSG {
      ApplyTwo(t.entries, (IS_HISTORY, true), (IS_PERSISTENT, true));
      t := WithOptions(t, [(IS_HISTORY, true), (IS_PERSISTENT, true)]);
    }
    ApplyOne(t.entries, (IS_SEND_MSG, cfg.isSendMsg));
    t := WithOptions(t, [(IS_SEND_MSG, cfg.isSendMsg)]);
  }

  /** Options.Is on a table that may be nil. */
  predicate IsSet(t: OptionTable?, key: string)
    reads t
  {
    t != null ==> Is(t.entries, key)
  }

  // ---------------------------------------------------------- messages

  class MsgData {
    const sendID: string
    const recvID: string
    const groupID: string
    const sessionType: int
    const contentType: int
    const options: OptionTable?

    constructor (m: Msg, options: OptionTable?)
      ensures sendID == m.sendID && recvID == m.recvID && groupID == m.groupID
      ensures sessionType == m.sessionType && contentType == m.contentType && this.options == options
    {
      this.sendID, this.recvID, this.groupID := m.sendID, m.recvID, m.groupID;
      this.sessionType, this.contentType := m.sessionType, m.contentType;
      this.options := options;
    }

    function Val(): Msg
      reads options
    {
      Msg(sendID, recvID, groupID, sessionType, contentType,
          if options == null then None else Some(options.entries))
    }
  }

  ghost function Tables(ms: seq<MsgData>): set<OptionTable>
  {
    set m: MsgData | m in ms && m.options != null :: m.options
  }

  ghost function Vals(ms: seq<MsgData>): (vs: seq<Msg>)
    reads Tables(ms)
    ensures |vs| == |ms| && forall i | 0 <= i < |ms| :: vs[i] == ms[i].Val()
  {
    if ms == [] then [] else Vals(ms[..|ms| - 1]) + [ms[|ms| - 1].Val()]
  }

  /** Messages decoded one by one share neither themselves nor a table. */
  ghost predicate Separate(ms: seq<MsgData>)
  {
    && (forall i, j | 0 <= i < j < |ms| :: ms[i] != ms[j])
    && (forall i, j | 0 <= i < j < |ms| && ms[i].options != null :: ms[i].options != ms[j].options)
  }

  // ----------------------------------------------------------- the split

  /** An entry of an output list: the i-th message itself, or the chat message
      made from it. */
  datatype Item = Original(i: nat) | Copy(i: nat)

  /** The output lists. */
  datatype Kind = StorageMsg | NotStorageMsg | StorageNotification | NotStorageNotification | Modified

  predicate SentAsMessage(m: Msg) {
    IsNotification(m) && Has(m, IS_SEND_MSG)
  }

  predicate Modifies(m: Msg) {
    m.contentType == REACTION_MESSAGE_MODIFIER || m.contentType == REACTION_MESSAGE_DELETER
  }

  /** Which messages a list takes. */
  predicate Takes(k: Kind, m: Msg) {
    match k
    case StorageMsg => !IsNotification(m) && Has(m, IS_HISTORY)
    case NotStorageMsg => !IsNotification(m) && !Has(m, IS_HISTORY)
    case StorageNotification => IsNotification(m) && Has(m, IS_HISTORY)
    case NotStorageNotification => IsNotification(m) && !Has(m, IS_HISTORY)
    case Modified => Modifies(m)
  }

  predicate TakesCopy(k: Kind, m: Msg) {
    k.StorageMsg? && SentAsMessage(m)
  }

  /** What the i-th message puts into a list. */
  function Entry(m: Msg, i: nat, k: Kind): seq<Item> {
    if TakesCopy(k, m) then [Copy(i)] else if Takes(k, m) then [Original(i)] else []
  }

  /** What the first n messages put into a list. */
  function ListOf(ms: seq<Msg>, n: nat, k: Kind): seq<Item>
    requires n <= |ms|
  {
    if n == 0 then [] else ListOf(ms, n - 1, k) + Entry(ms[n - 1], n - 1, k)
  }

  /** The chat message made from a notification keeps two flags of it. */
  function CopyOf(m: Msg): Msg {
    m.(options := Some(map[IS_OFFLINE_PUSH := Has(m, IS_OFFLINE_PUSH), IS_UNREAD_COUNT := Has(m, IS_UNREAD_COUNT)]))
  }

  /** What becomes of the message itself: a notification that is also sent as a
      message is left with both flags off. */
  function After(m: Msg): Msg {
    if SentAsMessage(m)
    then m.(options := Some(Table(m.options)[IS_OFFLINE_PUSH := false][IS_UNREAD_COUNT := false]))
    else m
  }

  function ItemVal(ms: seq<Msg>, item: Item): Msg
    requires item.i < |ms|
  {
    match item
    case Original(i) => After(ms[i])
    case Copy(i) => CopyOf(ms[i])
  }

  /** Makes the chat message of a notification and turns two flags of the
      notification off, in its own table. */
  method CopyAsMessage(v: MsgData) returns (msg: MsgData)
    requires SentAsMessage(v.Val())
    modifies v.options
    ensures fresh(msg) && msg.options != null && fresh(msg.options)
    ensures msg.Val() == CopyOf(old(v.Val()))
    ensures v.Val() == After(old(v.Val()))
  {
    var options := v.options;  // the table itself, not a copy of it
    var table := NewMsgOptions();
    ApplyTwo(map[], (IS_OFFLINE_PUSH, IsSet(options, IS_OFFLINE_PUSH)),
             (IS_UNREAD_COUNT, IsSet(options, IS_UNREAD_COUNT)));
    ApplyTwo(options.entries, (IS_OFFLINE_PUSH, false), (IS_UNREAD_COUNT, false));
    table := WithOptions(table,
      [(IS_OFFLINE_PUSH, IsSet(options, IS_OFFLINE_PUSH)), (IS_UNREAD_COUNT, IsSet(options, IS_UNREAD_COUNT))]);
    msg := new MsgData(v.Val(), table);
    var same := WithOptions(v.options, [(IS_OFFLINE_PUSH, false), (IS_UNREAD_COUNT, false)]);
  }

  datatype Lists = Lists(storageMsg: seq<MsgData>, notStorageMsg: seq<MsgData>,
                         storageNotification: seq<MsgData>, notStorageNotification: seq<MsgData>,
                         modified: seq<MsgData>)
  {
    function Get(k: Kind): seq<MsgData> {
      match k
      case StorageMsg => storageMsg
      case NotStorageMsg => notStorageMsg
      case StorageNotification => storageNotification
      case NotStorageNotification => notStorageNotification
      case Modified => modified
    }
  }

  function Maybe<T>(b: bool, x: T): seq<T> {
    if b then [x] else []
  }

  /** The lists after one more message v, of value m, of which `copy` was made. */
  function Extend(lists: Lists, v: MsgData, m: Msg, copy: MsgData): Lists {
    var (stored, note) := (Has(m, IS_HISTORY), IsNotification(m));
    Lists(
      lists.storageMsg + Maybe(SentAsMessage(m), copy) + Maybe(!note && stored, v),
      lists.notStorageMsg + Maybe(!note && !stored, v),
      lists.storageNotification + Maybe(note && stored, v),
      lists.notStorageNotification + Maybe(note && !stored, v),
      lists.modified + Maybe(Modifies(m), v))
  }

  /** Files one message; `msg` is the copy made of it, if one is made. */
  method FileOne(v: MsgData, lists: Lists) returns (out: Lists, msg: MsgData)
    modifies v.options
    ensures v.Val() == After(old(v.Val()))
    ensures SentAsMessage(old(v.Val())) ==> FreshCopy(msg, old(v.Val()))
    ensures out == Extend(lists, v, old(v.Val()), msg)
  {
    out, msg := lists, v;
    if !IsSet(v.options, IS_NOT_NOTIFICATION) {
      if IsSet(v.options, IS_SEND_MSG) {
        msg := CopyAsMessage(v);
        out := out.(storageMsg := out.storageMsg + [msg]);
      }
      if IsSet(v.options, IS_HISTORY) {
        out := out.(storageNotification := out.storageNotification + [v]);
      } else {
        out := out.(notStorageNotification := out.notStorageNotification + [v]);
      }
    } else {
      if IsSet(v.options, IS_HISTORY) {
        out := out.(storageMsg := out.storageMsg + [v]);
      } else {
        out := out.(notStorageMsg := out.notStorageMsg + [v]);
      }
    }
    if v.contentType == REACTION_MESSAGE_MODIFIER || v.contentType == REACTION_MESSAGE_DELETER {
      out := out.(modified := out.modified + [v]);
    }
  }

  /** A new object with a table of its own, holding the chat message of m. */
  twostate predicate FreshCopy(new c: MsgData, m: Msg)
    reads c.options
  {
    fresh(c) && c.options != null && fresh(c.options) && c.Val() == CopyOf(m)
  }

  /** The lists of objects for the first n messages, `made` being the copies. */
  function Collect(total: seq<MsgData>, made: seq<MsgData>, vals: seq<Msg>, n: nat): Lists
    requires n <= |total| && n <= |made| && n <= |vals|
  {
    if n == 0 then Lists([], [], [], [], [])
    else Extend(Collect(total, made, vals, n - 1), total[n - 1], vals[n - 1], made[n - 1])
  }

  lemma CollectFrame(total: seq<MsgData>, made: seq<MsgData>, more: seq<MsgData>, vals: seq<Msg>, n: nat)
    requires n <= |total| && n <= |made| && n <= |vals|
    ensures Collect(total, made, vals, n) == Collect(total, made + more, vals, n)
  {
  }

  lemma CollectNext(total: seq<MsgData>, made: seq<MsgData>, vals: seq<Msg>, n: nat, msg: MsgData)
    requires n == |made| < |total| && n < |vals|
    ensures Collect(total, made + [msg], vals, n + 1) == Extend(Collect(total, made, vals, n), total[n], vals[n], msg)
  {
    CollectFrame(total, made, [msg], vals, n);
  }

  /** ... which leaves the other messages alone, having tables of their own. */
  method FileNth(total: seq<MsgData>, n: nat, lists: Lists) returns (out: Lists, msg: MsgData)
    requires n < |total| && Separate(total)
    modifies total[n].options
    ensures total[n].Val() == After(old(total[n].Val()))
    ensures forall i | 0 <= i < |total| && i != n :: total[i].Val() == old(total[i].Val())
    ensures SentAsMessage(old(total[n].Val())) ==> FreshCopy(msg, old(total[n].Val()))
    ensures out == Extend(lists, total[n], old(total[n].Val()), msg)
  {
    out, msg := FileOne(total[n], lists);
  }

  /** getPushStorageMsgList. `made` holds, for each notification that is also sent
      as a message, the message made of it. */
  method GetPushStorageMsgList(total: seq<MsgData>) returns (lists: Lists, ghost made: seq<MsgData>)
    requires Separate(total)
    modifies Tables(total)
    ensures |made| == |total| && lists == Collect(total, made, old(Vals(total)), |total|)
    ensures forall i | 0 <= i < |total| :: total[i].Val() == After(old(Vals(total))[i])
    ensures forall i | 0 <= i < |total| && SentAsMessage(old(Vals(total))[i]) ::
              FreshCopy(made[i], old(Vals(total))[i])
  {
    lists := Lists([], [], [], [], []);
    made := [];
    ghost var vals := Vals(total);
    for n := 0 to |total|
      invariant |made| == n && lists == Collect(total, made, vals, n)
      invariant forall i | 0 <= i < n :: total[i].Val() == After(vals[i])
      invariant forall i | n <= i < |total| :: total[i].Val() == vals[i]
      invariant forall i | 0 <= i < n && SentAsMessage(vals[i]) :: FreshCopy(made[i], vals[i])
    {
      var msg;
      lists, msg := FileNth(total, n, lists);
      CollectNext(total, made, vals, n, msg);
      made := made + [msg];
    }
  }

  // ------------------------------------------- what the split guarantees

  /** The objects of an output list are the ones its items name. */
  predicate Refers(total: seq<MsgData>, made: seq<MsgData>, out: seq<MsgData>, items: seq<Item>)
    requires |made| == |total|
  {
    && |out| == |items|
    && forall j | 0 <= j < |items| ::
        items[j].i < |total| && out[j] == if items[j].Original? then total[items[j].i] else made[items[j].i]
  }

  lemma RefersMore(total: seq<MsgData>, made: seq<MsgData>, lists: Lists, items: seq<Item>, m: Msg, i: nat, k: Kind)
    requires i < |made| == |total| && Refers(total, made, lists.Get(k), items)
    ensures Refers(total, made, Extend(lists, total[i], m, made[i]).Get(k), items + Entry(m, i, k))
  {
  }

  /** A list of objects and the list of its items agree, entry by entry. */
  lemma {:induction false} CollectRefers(total: seq<MsgData>, made: seq<MsgData>, vals: seq<Msg>, n: nat, k: Kind)
    requires n <= |total| == |made| == |vals|
    ensures Refers(total, made, Collect(total, made, vals, n).Get(k), ListOf(vals, n, k))
  {
    if n > 0 {
      CollectRefers(total, made, vals, n - 1, k);
      RefersMore(total, made, Collect(total, made, vals, n - 1), ListOf(vals, n - 1, k), vals[n - 1], n - 1, k);
    }
  }

  /** Items in arrival order, none twice, all among the first n messages. */
  predicate InOrder(items: seq<Item>, n: nat) {
    && (forall j | 0 <= j < |items| :: items[j].i < n)
    && forall j, k | 0 <= j < k < |items| :: items[j].i < items[k].i
  }

  lemma {:induction false} ListInOrder(ms: seq<Msg>, n: nat, k: Kind)
    requires n <= |ms|
    ensures InOrder(ListOf(ms, n, k), n)
  {
    if n > 0 {
      ListInOrder(ms, n - 1, k);
    }
  }

  /** Each list holds exactly what it takes; a copy stands in the stored chat
      messages exactly for a notification that is also sent as a message. */
  lemma {:induction false} ListHolds(ms: seq<Msg>, n: nat, k: Kind, item: Item)
    requires n <= |ms|
    ensures item in ListOf(ms, n, k) <==>
            item.i < n && if item.Original? then Takes(k, ms[item.i]) else TakesCopy(k, ms[item.i])
  {
    if n > 0 {
      var (m, i) := (ms[n - 1], n - 1);
      ListHolds(ms, i, k, item);
      assert item in Entry(m, i, k) <==> item.i == i && if item.Original? then Takes(k, m) else TakesCopy(k, m);
    }
  }

  /** The lists of the i-th message, flag by flag, a flag that is absent counting as
      set: by the two flags for notifications and for storage into one of four lists,
      by the content type among those to be modified, and a copy of a notification
      with the send flag among the stored chat messages. */
  lemma ListsSpelled(ms: seq<Msg>, i: nat)
    requires i < |ms|
    ensures var (m, n) := (ms[i], |ms|);
            var on := (key: string) => m.options.Some? && key in m.options.value ==> m.options.value[key];
            && (Original(i) in ListOf(ms, n, StorageMsg) <==> on("isNotNotification") && on("history"))
            && (Original(i) in ListOf(ms, n, NotStorageMsg) <==> on("isNotNotification") && !on("history"))
            && (Original(i) in ListOf(ms, n, StorageNotification) <==> !on("isNotNotification") && on("history"))
            && (Original(i) in ListOf(ms, n, NotStorageNotification) <==> !on("isNotNotification") && !on("history"))
            && (Original(i) in ListOf(ms, n, Modified) <==> m.contentType == 121 || m.contentType == 122)
            && (Copy(i) in ListOf(ms, n, StorageMsg) <==> !on("isNotNotification") && on("isSendMsg"))
            && forall k: Kind | !k.StorageMsg? :: Copy(i) !in ListOf(ms, n, k)
  {
    forall k: Kind
      ensures Original(i) in ListOf(ms, |ms|, k) <==> Takes(k, ms[i])
      ensures Copy(i) in ListOf(ms, |ms|, k) <==> TakesCopy(k, ms[i])
    {
      ListHolds(ms, |ms|, k, Original(i));
      ListHolds(ms, |ms|, k, Copy(i));
    }
    TakesSpelled(ms[i]);
  }

  lemma TakesSpelled(m: Msg)
    ensures var on := (key: string) => m.options.Some? && key in m.options.value ==> m.options.value[key];
            && (Takes(StorageMsg, m) <==> on("isNotNotification") && on("history"))
            && (Takes(NotStorageMsg, m) <==> on("isNotNotification") && !on("history"))
            && (Takes(StorageNotification, m) <==> !on("isNotNotification") && on("history"))
            && (Takes(NotStorageNotification, m) <==> !on("isNotNotification") && !on("history"))
            && (Takes(Modified, m) <==> m.contentType == 121 || m.contentType == 122)
            && (TakesCopy(StorageMsg, m) <==> !on("isNotNotification") && on("isSendMsg"))
  {
  }

  /** The table of a copy has just the two flags, as they were before; and they are
      turned off in the table of the original, if a copy is made of it. */
  lemma FlagsSpelled(m: Msg)
    ensures var on := (key: string) => m.options.Some? && key in m.options.value ==> m.options.value[key];
            && CopyOf(m) == Msg(m.sendID, m.recvID, m.groupID, m.sessionType, m.contentType,
                 Some(map["offlinePush" := on("offlinePush"), "unreadCount" := on("unreadCount")]))
            && if on("isNotNotification") || !on("isSendMsg") then After(m) == m
               else After(m) == Msg(m.sendID, m.recvID, m.groupID, m.sessionType, m.contentType,
                      Some(m.options.value["offlinePush" := false]["unreadCount" := false]))
  {
  }

  /** Storage and kind pick one list for each message. */
  lemma ExactlyOneList(m: Msg)
    ensures exists k: Kind :: !k.Modified? && Takes(k, m)
                              && forall k': Kind | !k'.Modified? && Takes(k', m) :: k' == k
  {
    var k := if IsNotification(m)
    then (if Has(m, IS_HISTORY) then StorageNotification else NotStorageNotification)
    else (if Has(m, IS_HISTORY) then StorageMsg else NotStorageMsg);
    assert Takes(k, m);
  }

  /** What a configured notification turns into: stored exactly when it is a
      reliable one, sent as a message exactly when configured so, the message
      carrying the configured flags and the notification left without them. */
  lemma ConfiguredNotification(cfg: NotificationConf, m: Msg)
    requires m.options.Some? && Configures(cfg, m.options.value)
    ensures Takes(StorageNotification, m) <==> cfg.reliabilityLevel == RELIABLE_NOTIFICATION_NO_MSG
    ensures Takes(NotStorageNotification, m) <==> cfg.reliabilityLevel != RELIABLE_NOTIFICATION_NO_MSG
    ensures TakesCopy(StorageMsg, m) <==> cfg.isSendMsg
    ensures Has(CopyOf(m), IS_OFFLINE_PUSH) == cfg.offlinePush && Has(CopyOf(m), IS_UNREAD_COUNT) == cfg.unreadCount
    ensures !IsNotification(CopyOf(m)) && Has(CopyOf(m), IS_HISTORY)
    ensures cfg.isSendMsg ==> !Has(After(m), IS_OFFLINE_PUSH) && !Has(After(m), IS_UNREAD_COUNT)
    ensures IsNotification(After(m)) && Has(After(m), IS_HISTORY) == Has(m, IS_HISTORY)
  {
    assert IS_NOT_NOTIFICATION in OPTION_KEYS && IS_SEND_MSG in OPTION_KEYS && IS_HISTORY in OPTION_KEYS;
    assert IS_OFFLINE_PUSH in OPTION_KEYS && IS_UNREAD_COUNT in OPTION_KEYS;
  }

  // --------------------------------------------------------------- filing

  /** The conversation the worker files a list under: two identifiers computed
      once, from the first message of the batch. */
  function FiledUnder(k: Kind, first: Msg): string {
    if k.StorageMsg? || k.NotStorageMsg? then ChatIDByMsg(first) else NotificationIDByMsg(first)
  }

  /** Queued under one key, of one session type, and for notification sessions in
      one direction. The producer ensures the key alone. */
  predicate OneConversation(a: Msg, m: Msg) {
    && UniqueKey(m) == UniqueKey(a) != ""
    && m.sessionType == a.sessionType && KnownSession(m)
    && (a.sessionType == NOTIFICATION_CHAT ==> m.sendID == a.sendID && m.recvID == a.recvID)
  }

  /** Rewriting flags changes no identity, and a copy has the chat identity. */
  lemma ItemIdentity(ms: seq<Msg>, k: Kind, item: Item)
    requires !k.Modified? && item in ListOf(ms, |ms|, k)
    ensures item.i < |ms|
    ensures IDByMsg(ItemVal(ms, item)) == FiledUnder(k, ms[item.i])
  {
    ListHolds(ms, |ms|, k, item);
  }

  /** Every message of such a batch, copies included, is filed under its own
      identity, whatever characters the IDs hold. */
  lemma FilingAgrees(ms: seq<Msg>, k: Kind, item: Item)
    requires ms != [] && forall m | m in ms :: OneConversation(ms[0], m)
    requires !k.Modified? && item in ListOf(ms, |ms|, k)
    ensures item.i < |ms| && IDByMsg(ItemVal(ms, item)) == FiledUnder(k, ms[0])
  {
    ItemIdentity(ms, k, item);
    assert OneConversation(ms[0], ms[item.i]);
  }

  /** Is message m of a batch that begins with a filed under its own identity? */
  predicate FiledRight(k: Kind, a: Msg, m: Msg) {
    if k.StorageMsg? || k.NotStorageMsg?
    then m.sessionType == a.sessionType && (a.sessionType == NOTIFICATION_CHAT ==> Written(m) == Written(a))
    else Written(m) == Written(a)
  }

  /** Without that proviso: exactly which messages of one queue key are filed
      under their own identity. */
  lemma FilingByKey(ms: seq<Msg>, k: Kind, item: Item)
    requires ms != [] && forall m | m in ms :: UniqueKey(m) == UniqueKey(ms[0]) != ""
    requires !k.Modified? && item in ListOf(ms, |ms|, k)
    ensures item.i < |ms|
    ensures IDByMsg(ItemVal(ms, item)) == FiledUnder(k, ms[0]) <==> FiledRight(k, ms[0], ms[item.i])
  {
    ItemIdentity(ms, k, item);
    assert ms[item.i] in ms;
    FilingByWriting(ms[0], ms[item.i]);
  }

  /** One pair's chat and its notification session share a key, so they can share a
      batch; the notification session's message is then filed in the chat. */
  lemma MixedBatch()
    ensures var ms := [Msg("a", "b", "", SINGLE_CHAT, 101, None), Msg("a", "b", "", NOTIFICATION_CHAT, 101, None)];
            && UniqueKey(ms[0]) == UniqueKey(ms[1]) == "a_b" && PlainIDs(ms[0]) && PlainIDs(ms[1])
            && Original(1) in ListOf(ms, 2, StorageMsg)
            && FiledUnder(StorageMsg, ms[0]) == "si_a_b" && IDByMsg(ItemVal(ms, Original(1))) == "sn_a_b"
  {
    var ms := [Msg("a", "b", "", SINGLE_CHAT, 101, None), Msg("a", "b", "", NOTIFICATION_CHAT, 101, None)];
    ListHolds(ms, 2, StorageMsg, Original(1));
    assert Sorted("a", "b") == ("a", "b");
  }

  /** The same in terms of the users, when no ID holds an underscore. */
  lemma FilingExact(ms: seq<Msg>, k: Kind, item: Item)
    requires ms != [] && forall m | m in ms :: UniqueKey(m) == UniqueKey(ms[0]) != "" && PlainIDs(m)
    requires !k.Modified? && item in ListOf(ms, |ms|, k)
    ensures item.i < |ms|
    ensures var (a, m) := (ms[0], ms[item.i]);
            IDByMsg(ItemVal(ms, item)) == FiledUnder(k, a) <==>
            if k.StorageMsg? || k.NotStorageMsg?
            then m.sessionType == a.sessionType && (a.sessionType == NOTIFICATION_CHAT ==> m.sendID == a.sendID)
            else a.sessionType == SUPER_GROUP_CHAT || Direction(m) == Direction(a)
  {
    ItemIdentity(ms, k, item);
    var (a, m) := (ms[0], ms[item.i]);
    assert a in ms && m in ms;
    if k.StorageMsg? || k.NotStorageMsg? {
      ChatFilingExact(a, m);
    } else {
      NotificationFilingExact(a, m);
    }
  }

  // --------------------------------------------------------------- worker

  /** A request to create the conversation of a first message. */
  datatype FirstCreate =
    | ForGroup(groupID: string)
    | ForPair(recvID: string, sendID: string, id: string, sessionType: int)

  /** What the cache did with a batch: it failed, or took it, perhaps as the first
      of its conversation. */
  datatype Cached = Failed | Taken(isNew: bool)

  /** The topics a worker writes to, and the conversations it asks to be created. */
  class Topics {
    var pushed: seq<(string, MsgData)>
    var toMongo: seq<(string, seq<MsgData>)>
    var toModify: seq<(string, seq<MsgData>)>
    var toEs: seq<(string, seq<MsgData>)>
    var created: seq<FirstCreate>

    constructor ()
      ensures pushed == [] && toMongo == [] && toModify == [] && toEs == [] && created == []
    {
      pushed, toMongo, toModify, toEs, created := [], [], [], [], [];
    }
  }

  function Tagged(id: string, ms: seq<MsgData>): seq<(string, MsgData)> {
    seq(|ms|, i requires 0 <= i < |ms| => (id, ms[i]))
  }

  /** Every message is pushed, in order, under the conversation given. */
  method ToPushTopic(topics: Topics, id: string, ms: seq<MsgData>)
    modifies topics`pushed
    ensures topics.pushed == old(topics.pushed) + Tagged(id, ms)
  {
    for i := 0 to |ms|
      invariant topics.pushed == old(topics.pushed) + Tagged(id, ms[..i])
    {
      topics.pushed := topics.pushed + [(id, ms[i])];
      assert Tagged(id, ms[..i + 1]) == Tagged(id, ms[..i]) + [(id, ms[i])];
    }
    assert ms[..|ms|] == ms;
  }

  /** handleNotification: unstored messages are pushed first; stored ones only if
      the cache took them, and then go to the database and are pushed. */
  method HandleNotification(topics: Topics, id: string, storage: seq<MsgData>, notStorage: seq<MsgData>, cached: bool)
    modifies topics`pushed, topics`toMongo
    ensures topics.pushed == old(topics.pushed) + Tagged(id, notStorage) + (if cached then Tagged(id, storage) else [])
    ensures var (b, n, s) := (|old(topics.pushed)|, |notStorage|, if cached then |storage| else 0);
            && |topics.pushed| == b + n + s && topics.pushed[..b] == old(topics.pushed)
            && forall i | 0 <= i < n + s ::
                 topics.pushed[b + i] == (id, if i < n then notStorage[i] else storage[i - n])
    ensures topics.toMongo == old(topics.toMongo) + (if cached && storage != [] then [(id, storage)] else [])
  {
    ToPushTopic(topics, id, notStorage);
    if |storage| > 0 {
      if !cached {
        return;
      }
      topics.toMongo := topics.toMongo + [(id, storage)];
      ToPushTopic(topics, id, storage);
    }
  }

  /** What is asked to be created for a conversation's first stored message;
      `membersFound` tells whether the members of its group could be looked up. */
  function FirstOf(m: MsgData, id: string, membersFound: bool): seq<FirstCreate> {
    if m.sessionType == SUPER_GROUP_CHAT then (if membersFound then [ForGroup(m.groupID)] else [])
    else if m.sessionType == SINGLE_CHAT || m.sessionType == NOTIFICATION_CHAT
    then [ForPair(m.recvID, m.sendID, id, m.sessionType)]
    else []
  }

  /** handleMsg: the same, and a new conversation is created and the stored messages
      go to the search topic. */
  method HandleMsg(topics: Topics, id: string, storage: seq<MsgData>, notStorage: seq<MsgData>,
                   cached: Cached, membersFound: bool)
    modifies topics`pushed, topics`toMongo, topics`toEs, topics`created
    ensures topics.pushed ==
            old(topics.pushed) + Tagged(id, notStorage) + (if cached.Taken? then Tagged(id, storage) else [])
    ensures var (b, n, s) := (|old(topics.pushed)|, |notStorage|, if cached.Taken? then |storage| else 0);
            && |topics.pushed| == b + n + s && topics.pushed[..b] == old(topics.pushed)
            && forall i | 0 <= i < n + s ::
                 topics.pushed[b + i] == (id, if i < n then notStorage[i] else storage[i - n])
    ensures topics.toMongo == old(topics.toMongo) + (if cached.Taken? && storage != [] then [(id, storage)] else [])
    ensures topics.toEs == old(topics.toEs) + (if cached.Taken? && storage != [] then [(id, storage)] else [])
    ensures cached == Taken(true) && storage != [] ==>
              var m := storage[0];
              topics.created == old(topics.created) +
                if m.sessionType == 3 then (if membersFound then [ForGroup(m.groupID)] else [])
                else if m.sessionType == 1 || m.sessionType == 4 then [ForPair(m.recvID, m.sendID, id, m.sessionType)]
                else []
    ensures cached != Taken(true) || storage == [] ==> topics.created == old(topics.created)
  {
    ToPushTopic(topics, id, notStorage);
    if |storage| > 0 {
      if cached.Failed? {
        return;
      }
      if cached.isNew {
        var first := storage[0];
        match first.sessionType {
          case 3 =>
            if membersFound {
              topics.created := topics.created + [ForGroup(first.groupID)];
            }
          case 1 => topics.created := topics.created + [ForPair(first.recvID, first.sendID, id, SINGLE_CHAT)];
          case 4 => topics.created := topics.created + [ForPair(first.recvID, first.sendID, id, NOTIFICATION_CHAT)];
          case _ =>
        }
      }
      topics.toMongo := topics.toMongo + [(id, storage)];
      ToPushTopic(topics, id, storage);
      topics.toEs := topics.toEs + [(id, storage)];
    }
  }

  lemma AfterKeepsIDs(m: Msg)
    ensures ChatIDByMsg(After(m)) == ChatIDByMsg(m) && NotificationIDByMsg(After(m)) == NotificationIDByMsg(m)
  {
  }

  /** What a worker writes for the lists of a batch. */
  twostate predicate Wrote(topics: Topics, new lists: Lists, chat: string, note: string, msgCached: Cached,
                           membersFound: bool, notificationCached: bool)
    reads topics
  {
    var (stored, noted) := (msgCached.Taken? && lists.storageMsg != [],
                            notificationCached && lists.storageNotification != []);
    && topics.pushed == old(topics.pushed)
         + Tagged(chat, lists.notStorageMsg) + (if msgCached.Taken? then Tagged(chat, lists.storageMsg) else [])
         + Tagged(note, lists.notStorageNotification)
         + (if notificationCached then Tagged(note, lists.storageNotification) else [])
    && topics.toMongo == old(topics.toMongo) + (if stored then [(chat, lists.storageMsg)] else [])
         + (if noted then [(note, lists.storageNotification)] else [])
    && topics.toEs == old(topics.toEs) + (if stored then [(chat, lists.storageMsg)] else [])
    && topics.created == old(topics.created) +
         (if stored && msgCached == Taken(true) then FirstOf(lists.storageMsg[0], chat, membersFound) else [])
    && topics.toModify == old(topics.toModify) + (if lists.modified != [] then [(note, lists.modified)] else [])
  }

  /** All of one conversation. */
  ghost predicate OneConversations(vals: seq<Msg>) {
    forall i | 0 <= i < |vals| :: OneConversation(vals[0], vals[i])
  }

  /** The objects of a batch when the worker is done with it, and the copies made. */
  ghost predicate Done(batch: seq<MsgData>, made: seq<MsgData>, vals: seq<Msg>)
    reads Tables(batch), Tables(made)
  {
    && |made| == |vals| == |batch|
    && (forall i | 0 <= i < |batch| :: batch[i].Val() == After(vals[i]))
    && forall i | 0 <= i < |batch| && SentAsMessage(vals[i]) :: made[i].Val() == CopyOf(vals[i])
  }

  /** In a batch of one conversation every object of the four lists carries, when
      the worker is done, the identity of the conversation it is filed under. */
  lemma FiledUnderOwnIdentity(batch: seq<MsgData>, made: seq<MsgData>, vals: seq<Msg>, k: Kind, j: nat)
    requires batch != [] && Done(batch, made, vals) && OneConversations(vals) && !k.Modified?
    requires j < |Collect(batch, made, vals, |batch|).Get(k)|
    ensures IDByMsg(Collect(batch, made, vals, |batch|).Get(k)[j].Val()) == FiledUnder(k, vals[0])
  {
    CollectRefers(batch, made, vals, |batch|, k);
    var item := ListOf(vals, |vals|, k)[j];
    assert item in ListOf(vals, |vals|, k);
    ListHolds(vals, |vals|, k, item);
    FilingAgrees(vals, k, item);
  }

  /** Every message of the list carries this identity. */
  ghost predicate AllOf(ms: seq<MsgData>, id: string)
    reads Tables(ms)
  {
    forall j | 0 <= j < |ms| :: IDByMsg(ms[j].Val()) == id
  }

  lemma ListRight(batch: seq<MsgData>, made: seq<MsgData>, vals: seq<Msg>, k: Kind)
    requires batch != [] && Done(batch, made, vals) && OneConversations(vals) && !k.Modified?
    ensures AllOf(Collect(batch, made, vals, |batch|).Get(k), FiledUnder(k, vals[0]))
  {
    var ms := Collect(batch, made, vals, |batch|).Get(k);
    forall j | 0 <= j < |ms| ensures IDByMsg(ms[j].Val()) == FiledUnder(k, vals[0]) {
      FiledUnderOwnIdentity(batch, made, vals, k, j);
    }
  }

  /** The four lists are those of two identities. */
  ghost predicate ListsOf(lists: Lists, chat: string, note: string)
    reads Tables(lists.storageMsg), Tables(lists.notStorageMsg)
    reads Tables(lists.storageNotification), Tables(lists.notStorageNotification)
  {
    && AllOf(lists.storageMsg, chat) && AllOf(lists.notStorageMsg, chat)
    && AllOf(lists.storageNotification, note) && AllOf(lists.notStorageNotification, note)
  }

  lemma ListsRight(batch: seq<MsgData>, made: seq<MsgData>, vals: seq<Msg>)
    requires batch != [] && Done(batch, made, vals)
    ensures OneConversations(vals) ==>
              ListsOf(Collect(batch, made, vals, |batch|), ChatIDByMsg(vals[0]), NotificationIDByMsg(vals[0]))
  {
    if OneConversations(vals) {
      ListRight(batch, made, vals, StorageMsg);
      ListRight(batch, made, vals, NotStorageMsg);
      ListRight(batch, made, vals, StorageNotification);
      ListRight(batch, made, vals, NotStorageNotification);
    }
  }

  /** All that is new on the topics for pushing, storing and searching stands under
      the identity of the message itself. */
  twostate predicate WroteRight(topics: Topics)
    reads *
  {
    && |topics.pushed| >= |old(topics.pushed)| && |topics.toMongo| >= |old(topics.toMongo)|
    && |topics.toEs| >= |old(topics.toEs)|
    && (forall e | e in topics.pushed[|old(topics.pushed)|..] :: IDByMsg(e.1.Val()) == e.0)
    && (forall e | e in topics.toMongo[|old(topics.toMongo)|..] :: AllOf(e.1, e.0))
    && forall e | e in topics.toEs[|old(topics.toEs)|..] :: AllOf(e.1, e.0)
  }

  lemma PushedRight(before: seq<(string, MsgData)>, after: seq<(string, MsgData)>, lists: Lists,
                    chat: string, note: string, chats: bool, notes: bool)
    requires after == before
      + Tagged(chat, lists.notStorageMsg) + (if chats then Tagged(chat, lists.storageMsg) else [])
      + Tagged(note, lists.notStorageNotification) + (if notes then Tagged(note, lists.storageNotification) else [])
    requires ListsOf(lists, chat, note)
    ensures forall e | e in after[|before|..] :: IDByMsg(e.1.Val()) == e.0
  {
  }

  lemma StoredRight(before: seq<(string, seq<MsgData>)>, after: seq<(string, seq<MsgData>)>, lists: Lists,
                    chat: string, note: string, chats: bool, notes: bool)
    requires after == before + (if chats then [(chat, lists.storageMsg)] else [])
      + (if notes then [(note, lists.storageNotification)] else [])
    requires ListsOf(lists, chat, note)
    ensures forall e | e in after[|before|..] :: AllOf(e.1, e.0)
  {
  }

  /** The four writes of a worker, chat messages first. */
  method WriteLists(topics: Topics, lists: Lists, chat: string, note: string, msgCached: Cached, membersFound: bool,
                    notificationCached: bool)
    modifies topics
    ensures Wrote(topics, lists, chat, note, msgCached, membersFound, notificationCached)
  {
    HandleMsg(topics, chat, lists.storageMsg, lists.notStorageMsg, msgCached, membersFound);
    HandleNotification(topics, note, lists.storageNotification, lists.notStorageNotification, notificationCached);
    if |lists.modified| > 0 {
      topics.toModify := topics.toModify + [(note, lists.modified)];
    }
  }

  /** Run, for one batch from the worker's channel. */
  method HandleBatch(batch: seq<MsgData>, topics: Topics, msgCached: Cached, membersFound: bool,
                     notificationCached: bool)
    returns (lists: Lists, ghost made: seq<MsgData>)
    requires batch != [] && Separate(batch)
    modifies Tables(batch), topics
    ensures Done(batch, made, old(Vals(batch))) && lists == Collect(batch, made, old(Vals(batch)), |batch|)
    ensures var (chat, note) := (ChatIDByMsg(old(batch[0].Val())), NotificationIDByMsg(old(batch[0].Val())));
            var (storeChats, storeNotes) := (msgCached.Taken? && lists.storageMsg != [],
                                             notificationCached && lists.storageNotification != []);
            && topics.pushed == old(topics.pushed) + Tagged(chat, lists.notStorageMsg)
                 + (if storeChats then Tagged(chat, lists.storageMsg) else [])
                 + Tagged(note, lists.notStorageNotification)
                 + (if storeNotes then Tagged(note, lists.storageNotification) else [])
            && topics.toMongo == old(topics.toMongo) + (if storeChats then [(chat, lists.storageMsg)] else [])
                 + (if storeNotes then [(note, lists.storageNotification)] else [])
            && topics.toEs == old(topics.toEs) + (if storeChats then [(chat, lists.storageMsg)] else [])
            && topics.created == old(topics.created) +
                 (if storeChats && msgCached.isNew then FirstOf(lists.storageMsg[0], chat, membersFound) else [])
            && topics.toModify == old(topics.toModify) + (if lists.modified != [] then [(note, lists.modified)] else [])
    ensures OneConversations(old(Vals(batch))) ==> WroteRight(topics)
  {
    lists, made := GetPushStorageMsgList(batch);
    var chat := ChatIDByMsg(batch[0].Val());
    var note := NotificationIDByMsg(batch[0].Val());
    AfterKeepsIDs(old(batch[0].Val()));
    WriteLists(topics, lists, chat, note, msgCached, membersFound, notificationCached);
    ListsRight(batch, made, old(Vals(batch)));
    if OneConversations(old(Vals(batch))) {
      ghost var (stored, noted) := (msgCached.Taken? && lists.storageMsg != [],
                                    notificationCached && lists.storageNotification != []);
      PushedRight(old(topics.pushed), topics.pushed, lists, chat, note, msgCached.Taken?, notificationCached);
      StoredRight(old(topics.toMongo), topics.toMongo, lists, chat, note, stored, noted);
      StoredRight(old(topics.toEs), topics.toEs, lists, chat, note, stored, false);
    }
  }
}
