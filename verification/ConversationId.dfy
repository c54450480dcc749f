/** Conversation identifiers: how they are built from a message, how a chat
    identifier is turned into the identifier of its notifications, and how the
    pull path turns a notification identifier back. */
module ConversationId {
  import opened Messages

  // ------------------------------------------------------------ strings

  /** The order sort.Strings uses. */
  predicate Less(a: string, b: string) {
    b != "" && (a == "" || a[0] < b[0] || (a[0] == b[0] && Less(a[1..], b[1..])))
  }

  function Sorted(a: string, b: string): (string, string) {
    if Less(b, a) then (b, a) else (a, b)
  }

  lemma {:induction false} LessIsTotal(a: string, b: string)
    ensures a == b || Less(a, b) || Less(b, a)
    ensures !(Less(a, b) && Less(b, a))
    ensures a == b ==> !Less(a, b)
  {
    if a != "" && b != "" && a[0] == b[0] {
      LessIsTotal(a[1..], b[1..]);
      assert a == [a[0]] + a[1..] && b == [b[0]] + b[1..];
    }
  }

  /** The order is that of the first character in which two strings differ; a string
      comes before those that go on after it. */
  lemma {:induction false} LessIff(a: string, b: string)
    ensures Less(a, b) <==>
            exists i | 0 <= i <= |a| && i < |b| :: a[..i] == b[..i] && (i == |a| || a[i] < b[i])
  {
    if a != "" && b != "" && a[0] == b[0] {
      LessIff(a[1..], b[1..]);
      var (c, d) := (a[1..], b[1..]);
      if i :| 0 <= i <= |c| && i < |d| && c[..i] == d[..i] && (i == |c| || c[i] < d[i]) {
        assert a[..i + 1] == [a[0]] + c[..i] && b[..i + 1] == [b[0]] + d[..i];
      }
      if i :| 0 <= i <= |a| && i < |b| && a[..i] == b[..i] && (i == |a| || a[i] < b[i]) {
        assert i > 0 && c[..i - 1] == a[..i][1..] && d[..i - 1] == b[..i][1..];
      }
    } else if b != "" && (a == "" || a[0] < b[0]) {
      assert a[..0] == b[..0];
    } else if i :| 0 < i <= |a| && i < |b| && a[..i] == b[..i] {
      assert a[..i][0] == b[..i][0];
    }
  }

  /** Sorting forgets the order of a pair and nothing else. */
  lemma SortedIsUnordered(a: string, b: string, c: string, d: string)
    ensures Sorted(a, b) == Sorted(c, d) <==> (a == c && b == d) || (a == d && b == c)
  {
    LessIsTotal(a, b);
    LessIsTotal(c, d);
  }

  /** The pieces after one more character is put in front. */
  function Prepend(c: char, parts: seq<string>): (r: seq<string>)
    requires parts != []
    ensures r != []
  {
    if c == '_' then [""] + parts else [[c] + parts[0]] + parts[1..]
  }

  /** strings.Split(s, "_"): the pieces between underscores, at least one. */
  function Split(s: string): (parts: seq<string>)
    ensures parts != []
  {
    if s == "" then [""] else Prepend(s[0], Split(s[1..]))
  }

  /** strings.Join(parts, "_"). */
  function Join(parts: seq<string>): string {
    if |parts| == 0 then ""
    else if |parts| == 1 then parts[0]
    else parts[0] + "_" + Join(parts[1..])
  }

  predicate Plain(s: string) {
    '_' !in s
  }

  function Underscores(s: string): nat {
    if s == "" then 0 else (if s[0] == '_' then 1 else 0) + Underscores(s[1..])
  }

  lemma {:induction false} JoinSplit(s: string)
    ensures Join(Split(s)) == s
  {
    if s != "" {
      JoinSplit(s[1..]);
      var rest := Split(s[1..]);
      assert s == [s[0]] + s[1..];
      if s[0] == '_' {
        assert ([""] + rest)[1..] == rest;
      } else {
        assert ([[s[0]] + rest[0]] + rest[1..])[1..] == rest[1..];
      }
    }
  }

  lemma PrependConcat(c: char, p: seq<string>, q: seq<string>)
    requires p != []
    ensures Prepend(c, p + q) == Prepend(c, p) + q
  {
  }

  lemma {:induction false} SplitConcat(a: string, b: string)
    ensures Split(a + "_" + b) == Split(a) + Split(b)
  {
    var s := a + "_" + b;
    if a == "" {
      assert s[1..] == b;
    } else {
      SplitConcat(a[1..], b);
      assert s[1..] == a[1..] + "_" + b;
      PrependConcat(a[0], Split(a[1..]), Split(b));
    }
  }

  lemma {:induction false} SplitCount(s: string)
    ensures |Split(s)| == 1 + Underscores(s)
    ensures Plain(s) ==> Split(s) == [s]
    ensures Plain(s) <==> Underscores(s) == 0
  {
    if s != "" {
      SplitCount(s[1..]);
      assert s == [s[0]] + s[1..];
      assert Plain(s) <==> s[0] != '_' && Plain(s[1..]);
    }
  }

  lemma {:induction false} UnderscoresConcat(a: string, b: string)
    ensures Underscores(a + b) == Underscores(a) + Underscores(b)
  {
    if a == "" {
      assert a + b == b;
    } else {
      UnderscoresConcat(a[1..], b);
      assert (a + b)[1..] == a[1..] + b;
    }
  }

  /** A joined pair gives back its parts when the first part holds no underscore. */
  lemma PairIsInjective(x: string, y: string, x': string, y': string)
    requires Plain(x) && Plain(x')
    ensures x + "_" + y == x' + "_" + y' <==> x == x' && y == y'
  {
    SplitConcat(x, y);
    SplitConcat(x', y');
    SplitCount(x);
    SplitCount(x');
    JoinSplit(y);
    JoinSplit(y');
    if x + "_" + y == x' + "_" + y' {
      assert ([x] + Split(y))[0] == ([x'] + Split(y'))[0];
      assert ([x] + Split(y))[1..] == Split(y) && ([x'] + Split(y'))[1..] == Split(y');
    }
  }

  // -------------------------------------------------------- identifiers

  function JoinSorted(a: string, b: string): string {
    var (x, y) := Sorted(a, b);
    x + "_" + y
  }

  /** What follows the tag of either identifier of a message. */
  function Body(m: Msg): string {
    if m.sessionType == SINGLE_CHAT then JoinSorted(m.sendID, m.recvID)
    else if m.sessionType == NOTIFICATION_CHAT then m.sendID + "_" + m.recvID
    else m.groupID
  }

  function ChatTag(sessionType: int): string {
    if sessionType == SINGLE_CHAT then "si_"
    else if sessionType == GROUP_CHAT then "g_"
    else if sessionType == SUPER_GROUP_CHAT then "sg_"
    else "sn_"
  }

  /** GetNotificationConversationIDByMsg. */
  function NotificationIDByMsg(m: Msg): string {
    if KnownSession(m) then "n_" + Body(m) else ""
  }

  /** GetChatConversationIDByMsg. */
  function ChatIDByMsg(m: Msg): string {
    if KnownSession(m) then ChatTag(m.sessionType) + Body(m) else ""
  }

  /** GetConversationIDByMsg: the identity of a message. */
  function IDByMsg(m: Msg): string {
    if !KnownSession(m) then ""
    else if IsNotification(m) then "n_" + Body(m)
    else ChatTag(m.sessionType) + Body(m)
  }

  /** GenConversationUniqueKey: the key under which a message is queued. */
  function UniqueKey(m: Msg): string {
    if m.sessionType == SINGLE_CHAT || m.sessionType == NOTIFICATION_CHAT
    then JoinSorted(m.sendID, m.recvID)
    else if m.sessionType == SUPER_GROUP_CHAT then m.groupID
    else ""
  }

  /** GetNotificationConversationIDByConversationID. */
  function NotificationIDByConversationID(id: string): string {
    var l := Split(id);
    if |l| > 1 then Join(l[0 := "n"]) else ""
  }

  predicate HasNotificationTag(id: string) {
    "n_" <= id
  }

  /** The rewrite of a notification identifier in PullMessageBySeqs. */
  function PullRewrite(id: string): string {
    var n := |Split(id)|;
    if !HasNotificationTag(id) then id
    else if n == 2 then "sg_" + id[2..]
    else if n == 3 then "si_" + id[2..]
    else id
  }

  /** The identifiers and the queue key of a message, session type by session type. */
  lemma Spelled(m: Msg)
    ensures var (pair, there) := (if Less(m.recvID, m.sendID) then m.recvID + "_" + m.sendID
                                  else m.sendID + "_" + m.recvID,
                                  m.sendID + "_" + m.recvID);
            match m.sessionType
            case 1 => ChatIDByMsg(m) == "si_" + pair && NotificationIDByMsg(m) == "n_" + pair && UniqueKey(m) == pair
            case 2 => ChatIDByMsg(m) == "g_" + m.groupID && NotificationIDByMsg(m) == "n_" + m.groupID
                      && UniqueKey(m) == ""
            case 3 => ChatIDByMsg(m) == "sg_" + m.groupID && NotificationIDByMsg(m) == "n_" + m.groupID
                      && UniqueKey(m) == m.groupID
            case 4 => ChatIDByMsg(m) == "sn_" + there && NotificationIDByMsg(m) == "n_" + there && UniqueKey(m) == pair
            case _ => ChatIDByMsg(m) == NotificationIDByMsg(m) == UniqueKey(m) == ""
    ensures IDByMsg(m) ==
            if m.options.Some? && "isNotNotification" in m.options.value && !m.options.value["isNotNotification"]
            then NotificationIDByMsg(m) else ChatIDByMsg(m)
  {
  }

  // --------------------------------------------------------- round trips

  lemma RetagToNotification(tag: string, body: string)
    requires Plain(tag)
    ensures NotificationIDByConversationID(tag + "_" + body) == "n_" + body
  {
    SplitConcat(tag, body);
    SplitCount(tag);
    JoinSplit(body);
    var l := Split(tag + "_" + body);
    assert l == [tag] + Split(body);
    assert l[0 := "n"] == ["n"] + Split(body);
    assert (["n"] + Split(body))[1..] == Split(body);
  }

  /** Every chat identifier leads to the notification identifier of the same
      message, whatever characters the IDs hold. */
  lemma ChatToNotification(m: Msg)
    ensures NotificationIDByConversationID(ChatIDByMsg(m)) == NotificationIDByMsg(m)
  {
    var t := m.sessionType;
    if KnownSession(m) {
      var tag := if t == SINGLE_CHAT then "si" else if t == GROUP_CHAT then "g"
      else if t == SUPER_GROUP_CHAT then "sg" else "sn";
      assert ChatTag(t) == tag + "_";
      RetagToNotification(tag, Body(m));
    }
  }

  /** When the pull path finds the chat conversation of a notification: only for
      single and super-group sessions, and only if no ID holds an underscore. */
  predicate PullFindsChat(m: Msg) {
    || (m.sessionType == SINGLE_CHAT && Plain(m.sendID) && Plain(m.recvID))
    || (m.sessionType == SUPER_GROUP_CHAT && Plain(m.groupID))
  }

  /** Both IDs of a pair are free of underscores when their join holds just one. */
  lemma BodyUnderscores(m: Msg)
    requires m.sessionType == SINGLE_CHAT
    ensures Underscores(Body(m)) == 1 + Underscores(m.sendID) + Underscores(m.recvID)
  {
    var (x, y) := Sorted(m.sendID, m.recvID);
    UnderscoresConcat(x + "_", y);
    UnderscoresConcat(x, "_");
    assert Underscores("_") == 1 + Underscores("");
  }

  lemma NotificationIDPieces(m: Msg)
    requires KnownSession(m)
    ensures NotificationIDByMsg(m)[2..] == Body(m)
    ensures |Split(NotificationIDByMsg(m))| == 2 + Underscores(Body(m))
  {
    assert NotificationIDByMsg(m) == "n" + "_" + Body(m);
    SplitConcat("n", Body(m));
    SplitCount("n");
    SplitCount(Body(m));
  }

  lemma PullRewriteExact(m: Msg)
    requires KnownSession(m)
    ensures PullRewrite(NotificationIDByMsg(m)) == ChatIDByMsg(m) <==> PullFindsChat(m)
  {
    NotificationIDPieces(m);
    var (r, c, u) := (PullRewrite(NotificationIDByMsg(m)), ChatIDByMsg(m), Underscores(Body(m)));
    assert r[1] == if u == 0 then 'g' else if u == 1 then 'i' else '_';
    assert r[0] == if u <= 1 then 's' else 'n';
    assert c[0] == ChatTag(m.sessionType)[0] && c[1] == ChatTag(m.sessionType)[1];
    SplitCount(m.groupID);
    if m.sessionType == SINGLE_CHAT {
      BodyUnderscores(m);
      SplitCount(m.sendID);
      SplitCount(m.recvID);
    }
  }

  /** An underscore in an ID keeps the pull path from the chat: its ID is left as
      that of the notification. */
  lemma PullMisses()
    ensures var m := Msg("a_x", "b", "", SINGLE_CHAT, 101, None);
            && KnownSession(m) && NotificationIDByMsg(m) == "n_a_x_b" && ChatIDByMsg(m) == "si_a_x_b"
            && PullRewrite(NotificationIDByMsg(m)) == "n_a_x_b"
  {
    var m := Msg("a_x", "b", "", SINGLE_CHAT, 101, None);
    assert Sorted("a_x", "b") == ("a_x", "b");
    NotificationIDPieces(m);
    BodyUnderscores(m);
    UnderscoresConcat("a", "_x");
  }

  // ------------------------------------------------- what an ID identifies

  /** Chat identifiers of different session types never collide. */
  lemma ChatIDTellsSessionType(m: Msg, n: Msg)
    requires KnownSession(m) && KnownSession(n)
    requires ChatIDByMsg(m) == ChatIDByMsg(n)
    ensures m.sessionType == n.sessionType && Body(m) == Body(n)
  {
    var id := ChatIDByMsg(m);
    assert id[0] == ChatTag(m.sessionType)[0] == ChatTag(n.sessionType)[0];
    assert id[1] == ChatTag(m.sessionType)[1] == ChatTag(n.sessionType)[1];
    var k := |ChatTag(m.sessionType)|;
    assert id[k..] == Body(m) == Body(n);
  }

  /** Two single chats share an identifier exactly when the same two users talk. */
  lemma SingleChatIdentifiesPair(m: Msg, n: Msg)
    requires m.sessionType == n.sessionType == SINGLE_CHAT
    requires Plain(m.sendID) && Plain(m.recvID) && Plain(n.sendID) && Plain(n.recvID)
    ensures ChatIDByMsg(m) == ChatIDByMsg(n) <==>
            {m.sendID, m.recvID} == {n.sendID, n.recvID}
  {
    var (x, y) := Sorted(m.sendID, m.recvID);
    var (x', y') := Sorted(n.sendID, n.recvID);
    PairIsInjective(x, y, x', y');
    SortedIsUnordered(m.sendID, m.recvID, n.sendID, n.recvID);
    assert ChatIDByMsg(m)[3..] == x + "_" + y && ChatIDByMsg(n)[3..] == x' + "_" + y';
    if {m.sendID, m.recvID} == {n.sendID, n.recvID} {
      assert m.sendID in {n.sendID, n.recvID} && m.recvID in {n.sendID, n.recvID};
      assert n.sendID in {m.sendID, m.recvID} && n.recvID in {m.sendID, m.recvID};
    }
  }

  /** With underscores allowed two different pairs can share an identifier. */
  lemma UnderscoresCollide()
    ensures exists m: Msg, n: Msg ::
              m.sessionType == n.sessionType == SINGLE_CHAT && ChatIDByMsg(m) == ChatIDByMsg(n)
              && {m.sendID, m.recvID} != {n.sendID, n.recvID}
  {
    var m := Msg("a_b", "c", "", SINGLE_CHAT, 101, None);
    var n := Msg("a", "b_c", "", SINGLE_CHAT, 101, None);
    assert Sorted("a_b", "c") == ("a_b", "c") && Sorted("a", "b_c") == ("a", "b_c");
    assert "a_b" + "_" + "c" == "a" + "_" + "b_c";
    assert ChatIDByMsg(m) == ChatIDByMsg(n);
    assert "a_b" in {m.sendID, m.recvID} && "a_b" !in {n.sendID, n.recvID};
  }

  /** The tag alone tells notifications from chat messages. */
  lemma TagTellsNotification(m: Msg)
    ensures HasNotificationTag(IDByMsg(m)) <==> IsNotification(m) && KnownSession(m)
  {
    if KnownSession(m) && !IsNotification(m) {
      assert IDByMsg(m)[0] == ChatTag(m.sessionType)[0] != 'n';
    }
  }

  // -------------------------------------------------------------- filing

  /** The pair of users in the order the identifiers of the session write it. */
  function Direction(m: Msg): (string, string) {
    if m.sessionType == NOTIFICATION_CHAT then (m.sendID, m.recvID) else Sorted(m.sendID, m.recvID)
  }

  predicate PlainIDs(m: Msg) {
    Plain(m.sendID) && Plain(m.recvID) && Plain(m.groupID)
  }

  /** Exactly which messages of one queue key belong to the chat of message a. */
  lemma ChatFilingExact(a: Msg, m: Msg)
    requires UniqueKey(m) == UniqueKey(a) != "" && PlainIDs(a) && PlainIDs(m)
    ensures ChatIDByMsg(m) == ChatIDByMsg(a) <==>
            m.sessionType == a.sessionType && (a.sessionType == NOTIFICATION_CHAT ==> m.sendID == a.sendID)
  {
    var (x, y) := Sorted(a.sendID, a.recvID);
    var (x', y') := Sorted(m.sendID, m.recvID);
    PairIsInjective(x, y, x', y');
    SortedIsUnordered(a.sendID, a.recvID, m.sendID, m.recvID);
    PairIsInjective(a.sendID, a.recvID, m.sendID, m.recvID);
    if ChatIDByMsg(m) == ChatIDByMsg(a) {
      ChatIDTellsSessionType(m, a);
    }
  }

  /** Exactly which messages of one queue key share the notification
      conversation of message a. */
  lemma NotificationFilingExact(a: Msg, m: Msg)
    requires UniqueKey(m) == UniqueKey(a) != "" && PlainIDs(a) && PlainIDs(m)
    ensures NotificationIDByMsg(m) == NotificationIDByMsg(a) <==>
            a.sessionType == SUPER_GROUP_CHAT || Direction(m) == Direction(a)
  {
    var (x, y) := Sorted(a.sendID, a.recvID);
    var (x', y') := Sorted(m.sendID, m.recvID);
    SplitConcat(x, y);
    SplitConcat(x', y');
    SplitCount(a.groupID);
    SplitCount(m.groupID);
    assert |Split(x + "_" + y)| > 1 && |Split(x' + "_" + y')| > 1;
    assert NotificationIDByMsg(m)[2..] == Body(m) && NotificationIDByMsg(a)[2..] == Body(a);
    assert a.sessionType == SUPER_GROUP_CHAT <==> m.sessionType == SUPER_GROUP_CHAT;
    if a.sessionType != SUPER_GROUP_CHAT {
      var (d, e) := Direction(a);
      var (d', e') := Direction(m);
      assert Body(a) == d + "_" + e && Body(m) == d' + "_" + e';
      PairIsInjective(d, e, d', e');
    }
  }

  /** How the identifiers of a message write what its queue key stands for: a
      notification session keeps the direction of the pair, which the key forgets. */
  function Written(m: Msg): string {
    if m.sessionType == NOTIFICATION_CHAT then m.sendID + "_" + m.recvID else UniqueKey(m)
  }

  /** The same for IDs with any characters. */
  lemma FilingByWriting(a: Msg, m: Msg)
    requires UniqueKey(m) == UniqueKey(a) != ""
    ensures ChatIDByMsg(m) == ChatIDByMsg(a) <==>
            m.sessionType == a.sessionType && (a.sessionType == NOTIFICATION_CHAT ==> Written(m) == Written(a))
    ensures NotificationIDByMsg(m) == NotificationIDByMsg(a) <==> Written(m) == Written(a)
  {
    assert Body(m) == Written(m) && Body(a) == Written(a);
    assert NotificationIDByMsg(m)[2..] == Body(m) && NotificationIDByMsg(a)[2..] == Body(a);
    if ChatIDByMsg(m) == ChatIDByMsg(a) {
      ChatIDTellsSessionType(m, a);
    }
  }
}
