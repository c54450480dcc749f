/** Pushing a message to users: what each gateway reports, how the reports are
    merged, and the split into the users that were reached on an iOS device and
    those that get an offline push. */
module Push {
  import opened Sequences

  const IOS := 1
  const PUSH_FAILED := -2
  const IN_BACKGROUND := -3

  /** A connection of a user, and whether writing to it succeeds. */
  datatype Conn = Conn(platformID: int, background: bool, writes: bool)

  datatype PlatformResult = PlatformResult(platformID: int, code: int)

  datatype UserResult = UserResult(userID: string, onlinePush: bool, resp: seq<PlatformResult>)

  /** A gateway: who is connected to it, and the platforms that count. */
  datatype Gateway = Gateway(conns: map<string, seq<Conn>>, pushTerminal: seq<int>)

  // ------------------------------------------------------------- gateway

  /** An iOS device in the background is not written to. */
  predicate Tried(c: Conn) {
    !c.background || c.platformID != IOS
  }

  /** Reached on a platform that counts. */
  predicate Reached(g: Gateway, c: Conn) {
    Tried(c) && c.writes && c.platformID in g.pushTerminal
  }

  /** Reached on one that does not is not reported at all. */
  predicate Reported(g: Gateway, c: Conn) {
    !(Tried(c) && c.writes) || c.platformID in g.pushTerminal
  }

  function Code(c: Conn): int {
    if !Tried(c) then IN_BACKGROUND else if c.writes then 0 else PUSH_FAILED
  }

  function Reports(g: Gateway, conns: seq<Conn>): seq<PlatformResult> {
    if conns == [] then []
    else
      var (before, c) := (Reports(g, conns[..|conns| - 1]), conns[|conns| - 1]);
      if Reported(g, c) then before + [PlatformResult(c.platformID, Code(c))] else before
  }

  function ConnsOf(g: Gateway, userID: string): seq<Conn> {
    if userID in g.conns then g.conns[userID] else []
  }

  function ResultOf(g: Gateway, userID: string): UserResult {
    var conns := ConnsOf(g, userID);
    UserResult(userID, exists c | c in conns :: Reached(g, c), Reports(g, conns))
  }

  /** What a gateway answers: one result per requested user, in their order. */
  function Answer(g: Gateway, userIDs: seq<string>): (rs: seq<UserResult>)
    ensures |rs| == |userIDs| && forall i | 0 <= i < |rs| :: rs[i] == ResultOf(g, userIDs[i])
  {
    seq(|userIDs|, i requires 0 <= i < |userIDs| => ResultOf(g, userIDs[i]))
  }

  /** A user is reached online exactly if there is a report with code 0. */
  lemma {:induction false} ReachedIsZero(g: Gateway, conns: seq<Conn>)
    ensures (exists c | c in conns :: Reached(g, c)) <==> exists r | r in Reports(g, conns) :: r.code == 0
  {
    if conns != [] {
      var n := |conns| - 1;
      ReachedIsZero(g, conns[..n]);
      assert forall c | c in conns :: c in conns[..n] || c == conns[n];
      assert conns[n] in conns && forall c | c in conns[..n] :: c in conns;
      if Reported(g, conns[n]) {
        var (before, last) := (Reports(g, conns[..n]), PlatformResult(conns[n].platformID, Code(conns[n])));
        assert forall r | r in before + [last] :: r in before || r == last;
        assert last in before + [last] && forall r | r in before :: r in before + [last];
      }
    }
  }

  /** The first connection that is reported at all decides the first report. */
  lemma {:induction false} FirstReport(g: Gateway, conns: seq<Conn>, i: nat)
    requires i < |conns| && Reported(g, conns[i]) && forall j | 0 <= j < i :: !Reported(g, conns[j])
    ensures Reports(g, conns) != [] && Reports(g, conns)[0] == PlatformResult(conns[i].platformID, Code(conns[i]))
  {
    var n := |conns| - 1;
    if i < n {
      FirstReport(g, conns[..n], i);
    } else {
      NoReports(g, conns[..n]);
    }
  }

  lemma {:induction false} NoReports(g: Gateway, conns: seq<Conn>)
    requires forall j | 0 <= j < |conns| :: !Reported(g, conns[j])
    ensures Reports(g, conns) == []
  {
    if conns != [] {
      NoReports(g, conns[..|conns| - 1]);
    }
  }

  /** What is reported, connection by connection and in their order: an iOS device in
      the background with -3, one that cannot be written to with -2, one that was
      written to with 0, and only if its platform counts. */
  lemma {:induction false} ReportsSplit(g: Gateway, a: seq<Conn>, c: Conn, b: seq<Conn>)
    ensures Reports(g, a + [c] + b) == Reports(g, a) +
            (if c.background && c.platformID == 1 then [PlatformResult(1, -3)]
             else if !c.writes then [PlatformResult(c.platformID, -2)]
             else if c.platformID in g.pushTerminal then [PlatformResult(c.platformID, 0)]
             else []) + Reports(g, b)
    ensures Reports(g, []) == []
  {
    var all := a + [c] + b;
    if b == [] {
      assert all == a + [c] && all[..|a|] == a;
    } else {
      var n := |b| - 1;
      ReportsSplit(g, a, c, b[..n]);
      assert all[..|all| - 1] == a + [c] + b[..n] && all[|all| - 1] == b[n];
    }
  }

  /** The gateway's loop over users and their connections. */
  method SuperGroupOnlineBatchPushOneMsg(g: Gateway, pushToUserIDs: seq<string>) returns (results: seq<UserResult>)
    ensures results == Answer(g, pushToUserIDs)
  {
    results := [];
    for i := 0 to |pushToUserIDs|
      invariant results == Answer(g, pushToUserIDs[..i])
    {
      var v := pushToUserIDs[i];
      var resp, onlinePush := [], false;
      if v in g.conns {
        var clients := g.conns[v];
        for j := 0 to |clients|
          invariant resp == Reports(g, clients[..j])
          invariant onlinePush <==> exists c | c in clients[..j] :: Reached(g, c)
        {
          var client := clients[j];
          assert clients[..j + 1][..j] == clients[..j];
          assert forall c | c in clients[..j + 1] :: c in clients[..j] || c == client;
          assert client in clients[..j + 1] && forall c | c in clients[..j] :: c in clients[..j + 1];
          if !client.background || (client.background && client.platformID != IOS) {
            if !client.writes {
              resp := resp + [PlatformResult(client.platformID, PUSH_FAILED)];
            } else if client.platformID in g.pushTerminal {
              onlinePush := true;
              resp := resp + [PlatformResult(client.platformID, 0)];
            }
          } else {
            resp := resp + [PlatformResult(client.platformID, IN_BACKGROUND)];
          }
        }
        assert clients[..|clients|] == clients;
      }
      results := results + [UserResult(v, onlinePush, resp)];
    }
    assert pushToUserIDs[..|pushToUserIDs|] == pushToUserIDs;
  }

  // ------------------------------------------------------------- merging

  function Concat(replies: seq<seq<UserResult>>): seq<UserResult> {
    if replies == [] then [] else Concat(replies[..|replies| - 1]) + replies[|replies| - 1]
  }

  /** The replies that arrived, appended as they arrived. */
  method Merge(pushToUserIDs: seq<string>, replies: seq<seq<UserResult>>) returns (wsResults: seq<UserResult>)
    ensures wsResults == if pushToUserIDs == [] then [] else Concat(replies)
  {
    wsResults := [];
    if |pushToUserIDs| == 0 {
      return;
    }
    for i := 0 to |replies|
      invariant wsResults == Concat(replies[..i])
    {
      assert replies[..i + 1][..i] == replies[..i];
      wsResults := wsResults + replies[i];
    }
    assert replies[..|replies|] == replies;
  }

  lemma {:induction false} ConcatExact(replies: seq<seq<UserResult>>, r: UserResult)
    ensures r in Concat(replies) <==> exists reply | reply in replies :: r in reply
  {
    if replies != [] {
      var n := |replies| - 1;
      ConcatExact(replies[..n], r);
      assert forall x | x in replies :: x in replies[..n] || x == replies[n];
      assert replies[n] in replies && forall x | x in replies[..n] :: x in replies;
    }
  }

  // --------------------------------------------------------------- split

  /** Pushed online, and the first report is an iOS one. */
  predicate OnIOS(r: UserResult) {
    r.onlinePush && r.userID != "" && (if |r.resp| > 0 then r.resp[0].platformID else 0) == IOS
  }

  /** The distinct elements in the order they first come. */
  function Firsts(s: seq<string>): seq<string> {
    if s == [] then []
    else
      var (before, last) := (Firsts(s[..|s| - 1]), s[|s| - 1]);
      if last in before then before else before + [last]
  }

  lemma {:induction false} FirstsExact(s: seq<string>)
    ensures NoDup(Firsts(s)) && forall x :: x in Firsts(s) <==> x in s
  {
    if s != [] {
      var n := |s| - 1;
      FirstsExact(s[..n]);
      assert forall x | x in s :: x in s[..n] || x == s[n];
      assert s[n] in s && forall x | x in s[..n] :: x in s;
    }
  }

  /** ... in the order they first come: more elements behind only add at the end. */
  lemma {:induction false} FirstsInOrder(s: seq<string>, n: nat)
    requires n <= |s|
    ensures Firsts(s[..n]) <= Firsts(s)
  {
    if n < |s| {
      FirstsInOrder(s[..|s| - 1], n);
      assert s[..|s| - 1][..n] == s[..n];
    } else {
      assert s[..n] == s;
    }
  }

  lemma FirstsOfTwo(a: string, b: string)
    ensures Firsts([]) == [] && Firsts([a]) == [a]
    ensures Firsts([a, b]) == if a == b then [a] else [a, b]
  {
  }

  /** utils.Distinct, with its short cuts for lists of up to two. */
  method Distinct(ts: seq<string>) returns (v: seq<string>)
    ensures v == Firsts(ts)
  {
    if |ts| < 2 {
      FirstsOfTwo(if ts == [] then "" else ts[0], "");
      assert ts == [] || ts == [ts[0]];
      return ts;
    } else if |ts| == 2 {
      FirstsOfTwo(ts[0], ts[1]);
      assert ts == [ts[0], ts[1]];
      if ts[0] == ts[1] {
        return ts[..1];
      }
      return ts;
    }
    v := [];
    var tmp := {};
    for i := 0 to |ts|
      invariant v == Firsts(ts[..i]) && forall x :: x in tmp <==> x in v
    {
      assert ts[..i + 1][..i] == ts[..i];
      if ts[i] !in tmp {
        tmp := tmp + {ts[i]};
        v := v + [ts[i]];
      }
    }
    assert ts[..|ts|] == ts;
  }

  function OnlineIDs(rs: seq<UserResult>): seq<string> {
    if rs == [] then []
    else
      var (before, r) := (OnlineIDs(rs[..|rs| - 1]), rs[|rs| - 1]);
      if OnIOS(r) then before + [r.userID] else before
  }

  predicate NeedsOffline(r: UserResult, online: seq<string>, sendID: string) {
    r.userID !in online && r.userID != "" && r.userID != sendID
  }

  function OfflineIDs(rs: seq<UserResult>, online: seq<string>, sendID: string): seq<string> {
    if rs == [] then []
    else
      var (before, r) := (OfflineIDs(rs[..|rs| - 1], online, sendID), rs[|rs| - 1]);
      if NeedsOffline(r, online, sendID) then before + [r.userID] else before
  }

  lemma {:induction false} OnlineExact(rs: seq<UserResult>, u: string)
    ensures u in OnlineIDs(rs) <==> exists r | r in rs :: OnIOS(r) && r.userID == u
  {
    if rs != [] {
      var n := |rs| - 1;
      OnlineExact(rs[..n], u);
      assert forall r | r in rs :: r in rs[..n] || r == rs[n];
      assert rs[n] in rs && forall r | r in rs[..n] :: r in rs;
    }
  }

  lemma {:induction false} OfflineExact(rs: seq<UserResult>, online: seq<string>, sendID: string, u: string)
    ensures u in OfflineIDs(rs, online, sendID) <==>
            u !in online && u != "" && u != sendID && exists r | r in rs :: r.userID == u
  {
    if rs != [] {
      var n := |rs| - 1;
      OfflineExact(rs[..n], online, sendID, u);
      assert forall r | r in rs :: r in rs[..n] || r == rs[n];
      assert rs[n] in rs && forall r | r in rs[..n] :: r in rs;
    }
  }

  /** The two lists handed to the offline pusher. */
  function Split(rs: seq<UserResult>, sendID: string): (seq<string>, seq<string>) {
    var online := OnlineIDs(rs);
    (Firsts(online), Firsts(OfflineIDs(rs, online, sendID)))
  }

  /** Push2User, from the merged results to those lists. */
  method Push2User(wsResults: seq<UserResult>, sendID: string) returns (online: seq<string>, offline: seq<string>)
    ensures (online, offline) == Split(wsResults, sendID)
  {
    var onlinePushSuccUserID := [];
    for i := 0 to |wsResults|
      invariant onlinePushSuccUserID == OnlineIDs(wsResults[..i])
    {
      assert wsResults[..i + 1][..i] == wsResults[..i];
      var e := wsResults[i];
      var recvPlatformID := 0;
      if |e.resp| > 0 {
        recvPlatformID := e.resp[0].platformID;
      }
      if e.onlinePush && e.userID != "" && recvPlatformID == IOS {
        onlinePushSuccUserID := onlinePushSuccUserID + [e.userID];
      }
    }
    assert wsResults[..|wsResults|] == wsResults;
    var offlinePushUserIDList := [];
    for i := 0 to |wsResults|
      invariant offlinePushUserIDList == OfflineIDs(wsResults[..i], onlinePushSuccUserID, sendID)
    {
      assert wsResults[..i + 1][..i] == wsResults[..i];
      var e := wsResults[i];
      if e.userID !in onlinePushSuccUserID && e.userID != "" && e.userID != sendID {
        offlinePushUserIDList := offlinePushUserIDList + [e.userID];
      }
    }
    online := Distinct(onlinePushSuccUserID);
    offline := Distinct(offlinePushUserIDList);
  }

  // -------------------------------------------------------- main theorems

  /** Whatever the results: both lists are free of duplicates and have nobody in
      common; a user is in the online one exactly if some result has it reached on
      iOS, and in the offline one exactly if there are only other results about it. */
  lemma SplitOf(rs: seq<UserResult>, sendID: string, u: string)
    ensures var (online, offline) := Split(rs, sendID);
            && NoDup(online) && NoDup(offline)
            && (u in online <==> exists r | r in rs :: OnIOS(r) && r.userID == u)
            && (u in offline <==>
                u !in online && u != "" && u != sendID && exists r | r in rs :: r.userID == u)
  {
    var online := OnlineIDs(rs);
    FirstsExact(online);
    FirstsExact(OfflineIDs(rs, online, sendID));
    OnlineExact(rs, u);
    OfflineExact(rs, online, sendID, u);
  }

  /** The results are about the requested users, and about all of them. */
  predicate Covers(rs: seq<UserResult>, userIDs: seq<string>) {
    && (forall r | r in rs :: r.userID in userIDs)
    && forall u | u in userIDs :: exists r | r in rs :: r.userID == u
  }

  /** Then a requested user with an ID, other than the sender, is in exactly one
      list. */
  lemma SplitExact(rs: seq<UserResult>, userIDs: seq<string>, sendID: string, u: string)
    requires Covers(rs, userIDs)
    ensures var (online, offline) := Split(rs, sendID);
            && NoDup(online) && NoDup(offline)
            && (u in online <==> exists r | r in rs :: OnIOS(r) && r.userID == u)
            && (u in offline <==> u in userIDs && u != "" && u != sendID && u !in online)
            && (u in online ==> u in userIDs && u != "")
  {
    SplitOf(rs, sendID, u);
  }

  /** Replies of any gateways to the same request. */
  ghost predicate RepliesOf(replies: seq<seq<UserResult>>, gateways: seq<Gateway>, userIDs: seq<string>) {
    |replies| == |gateways| && forall i | 0 <= i < |replies| :: replies[i] == Answer(gateways[i], userIDs)
  }

  lemma RepliesCover(replies: seq<seq<UserResult>>, gateways: seq<Gateway>, userIDs: seq<string>)
    requires RepliesOf(replies, gateways, userIDs) && replies != []
    ensures Covers(Concat(replies), userIDs)
  {
    forall r | r in Concat(replies) ensures r.userID in userIDs {
      ConcatExact(replies, r);
    }
    forall u | u in userIDs ensures exists r | r in Concat(replies) :: r.userID == u {
      var i :| 0 <= i < |userIDs| && userIDs[i] == u;
      ConcatExact(replies, replies[0][i]);
    }
  }

  /** The results about a requested user are those of the gateways that answered. */
  lemma ResultFrom(replies: seq<seq<UserResult>>, gateways: seq<Gateway>, userIDs: seq<string>,
                   u: string, r: UserResult)
    requires RepliesOf(replies, gateways, userIDs) && r in Concat(replies) && r.userID == u
    ensures exists g | g in gateways :: r == ResultOf(g, u)
  {
    ConcatExact(replies, r);
    var reply :| reply in replies && r in reply;
    var j :| 0 <= j < |replies| && replies[j] == reply;
    assert gateways[j] in gateways && reply == Answer(gateways[j], userIDs);
  }

  lemma ResultIn(replies: seq<seq<UserResult>>, gateways: seq<Gateway>, userIDs: seq<string>, u: string, g: Gateway)
    requires RepliesOf(replies, gateways, userIDs) && u in userIDs && g in gateways
    ensures ResultOf(g, u) in Concat(replies)
  {
    var i :| 0 <= i < |userIDs| && userIDs[i] == u;
    var j :| 0 <= j < |gateways| && gateways[j] == g;
    assert replies[j] in replies && replies[j][i] == ResultOf(g, u);
    ConcatExact(replies, ResultOf(g, u));
  }

  /** Whichever gateways answered, at least one: a user is online exactly if one of
      them reached it, with an iOS report first, and offline otherwise. */
  lemma PushComplete(replies: seq<seq<UserResult>>, gateways: seq<Gateway>, userIDs: seq<string>,
                     sendID: string, u: string)
    requires RepliesOf(replies, gateways, userIDs) && replies != []
    ensures var (online, offline) := Split(Concat(replies), sendID);
            && (u in online <==> u in userIDs && exists g | g in gateways :: OnIOS(ResultOf(g, u)))
            && (u in offline <==> u in userIDs && u != "" && u != sendID && u !in online)
  {
    RepliesCover(replies, gateways, userIDs);
    SplitExact(Concat(replies), userIDs, sendID, u);
    if r :| r in Concat(replies) && OnIOS(r) && r.userID == u {
      ResultFrom(replies, gateways, userIDs, u, r);
    }
    if g :| u in userIDs && g in gateways && OnIOS(ResultOf(g, u)) {
      ResultIn(replies, gateways, userIDs, u, g);
    }
  }

  /** Of one gateway: some connection of the user was written to on a platform that
      counts, and the first connection that was not written to in vain, that is, on
      a platform that does not count, is an iOS one. */
  lemma OnIOSIff(g: Gateway, u: string)
    ensures OnIOS(ResultOf(g, u)) <==>
            && u != "" && u in g.conns
            && (exists c | c in g.conns[u] ::
                  (!c.background || c.platformID != 1) && c.writes && c.platformID in g.pushTerminal)
            && exists i | 0 <= i < |g.conns[u]| ::
                 var c := g.conns[u][i];
                 && c.platformID == 1 && (c.background || !c.writes || c.platformID in g.pushTerminal)
                 && forall d | d in g.conns[u][..i] ::
                      (!d.background || d.platformID != 1) && d.writes && d.platformID !in g.pushTerminal
  {
    var conns := ConnsOf(g, u);
    if i :| 0 <= i < |conns| && Reported(g, conns[i]) && forall d | d in conns[..i] :: !Reported(g, d) {
      assert forall j | 0 <= j < i :: conns[j] == conns[..i][j];
      FirstReport(g, conns, i);
      OnlyFirst(g, conns, i);
    } else {
      FirstOrNone(g, conns);
      NoReports(g, conns);
    }
  }

  lemma {:induction false} FirstOrNone(g: Gateway, conns: seq<Conn>)
    ensures (forall c | c in conns :: !Reported(g, c)) ||
            exists i | 0 <= i < |conns| :: Reported(g, conns[i]) && forall d | d in conns[..i] :: !Reported(g, d)
  {
    if conns != [] {
      var n := |conns| - 1;
      FirstOrNone(g, conns[..n]);
      if i :| 0 <= i < n && Reported(g, conns[..n][i]) && forall d | d in conns[..n][..i] :: !Reported(g, d) {
        assert conns[..n][..i] == conns[..i] && conns[..n][i] == conns[i];
      }
      assert forall c | c in conns :: c in conns[..n] || c == conns[n];
    }
  }

  /** Only one connection is the first that is reported. */
  lemma OnlyFirst(g: Gateway, conns: seq<Conn>, i: nat)
    requires i < |conns| && Reported(g, conns[i]) && forall d | d in conns[..i] :: !Reported(g, d)
    ensures forall k | 0 <= k < |conns| && Reported(g, conns[k]) && (forall d | d in conns[..k] :: !Reported(g, d)) ::
              k == i
  {
    forall k | 0 <= k < i ensures conns[k] in conns[..i] {
      assert conns[..i][k] == conns[k];
    }
    forall k | i < k < |conns| ensures conns[i] in conns[..k] {
      assert conns[..k][i] == conns[i];
    }
  }

  /** From the connections at the gateways that answered to the two lists: a user is
      online exactly if at one of them some connection was written to on a platform
      that counts, and the first connection there that gets a report is an iOS one. */
  lemma PushSpelled(replies: seq<seq<UserResult>>, gateways: seq<Gateway>, userIDs: seq<string>,
                    sendID: string, u: string)
    requires RepliesOf(replies, gateways, userIDs) && replies != []
    ensures var (online, offline) := Split(Concat(replies), sendID);
            && (u in online <==> u in userIDs && u != "" && exists g | g in gateways ::
                  && u in g.conns
                  && (exists c | c in g.conns[u] ::
                        (!c.background || c.platformID != 1) && c.writes && c.platformID in g.pushTerminal)
                  && exists i | 0 <= i < |g.conns[u]| ::
                       var c := g.conns[u][i];
                       && c.platformID == 1 && (c.background || !c.writes || c.platformID in g.pushTerminal)
                       && forall d | d in g.conns[u][..i] ::
                            (!d.background || d.platformID != 1) && d.writes && d.platformID !in g.pushTerminal)
            && (u in offline <==> u in userIDs && u != "" && u != sendID && u !in online)
  {
    PushComplete(replies, gateways, userIDs, sendID, u);
    forall g {
      OnIOSIff(g, u);
    }
  }

  /** The order in which the replies arrive changes neither list but for its own
      order. */
  lemma OrderFree(replies: seq<seq<UserResult>>, replies': seq<seq<UserResult>>, sendID: string, u: string)
    requires forall reply :: reply in replies <==> reply in replies'
    ensures var (s, s') := (Split(Concat(replies), sendID), Split(Concat(replies'), sendID));
            (u in s.0 <==> u in s'.0) && (u in s.1 <==> u in s'.1)
  {
    var (rs, rs') := (Concat(replies), Concat(replies'));
    forall r ensures r in rs <==> r in rs' {
      ConcatExact(replies, r);
      ConcatExact(replies', r);
    }
    var (online, online') := (OnlineIDs(rs), OnlineIDs(rs'));
    OnlineExact(rs, u);
    OnlineExact(rs', u);
    OfflineExact(rs, online, sendID, u);
    OfflineExact(rs', online', sendID, u);
    FirstsExact(online);
    FirstsExact(online');
    FirstsExact(OfflineIDs(rs, online, sendID));
    FirstsExact(OfflineIDs(rs', online', sendID));
  }

  // ----------------------------------------------- one gateway per user

  /** The users of one host, in order. */
  function HostUsers(userIDs: seq<string>, hostOf: map<string, string>, host: string): seq<string> {
    if userIDs == [] then []
    else
      var (before, u) := (HostUsers(userIDs[..|userIDs| - 1], hostOf, host), userIDs[|userIDs| - 1]);
      if u in hostOf && hostOf[u] == host then before + [u] else before
  }

  lemma {:induction false} HostUsersExact(userIDs: seq<string>, hostOf: map<string, string>, host: string, u: string)
    ensures u in HostUsers(userIDs, hostOf, host) <==> u in userIDs && u in hostOf && hostOf[u] == host
  {
    if userIDs != [] {
      var n := |userIDs| - 1;
      HostUsersExact(userIDs[..n], hostOf, host, u);
      assert u in userIDs <==> u in userIDs[..n] || u == userIDs[n];
    }
  }

  /** ... in the order of the request, as often as they stand in it. */
  lemma {:induction false} HostUsersSplit(a: seq<string>, u: string, b: seq<string>, hostOf: map<string, string>,
                                          host: string)
    ensures HostUsers(a + [u] + b, hostOf, host) ==
            HostUsers(a, hostOf, host) + (if u in hostOf && hostOf[u] == host then [u] else [])
            + HostUsers(b, hostOf, host)
    ensures HostUsers([], hostOf, host) == []
  {
    var all := a + [u] + b;
    if b == [] {
      assert all == a + [u] && all[..|a|] == a;
    } else {
      var n := |b| - 1;
      HostUsersSplit(a, u, b[..n], hostOf, host);
      assert all[..|all| - 1] == a + [u] + b[..n] && all[|all| - 1] == b[n];
    }
  }

  /** k8sOnlinePush groups the users by the host their ID hashes to; it fails as
      soon as a host cannot be told. */
  method GroupByHost(userIDs: seq<string>, hostOf: map<string, string>)
    returns (ok: bool, usersHost: map<string, seq<string>>)
    ensures ok <==> forall u | u in userIDs :: u in hostOf
    ensures ok ==> forall host :: host in usersHost <==> HostUsers(userIDs, hostOf, host) != []
    ensures ok ==> forall host | host in usersHost :: usersHost[host] == HostUsers(userIDs, hostOf, host)
  {
    usersHost := map[];
    for i := 0 to |userIDs|
      invariant forall u | u in userIDs[..i] :: u in hostOf
      invariant forall host :: host in usersHost <==> HostUsers(userIDs[..i], hostOf, host) != []
      invariant forall host | host in usersHost :: usersHost[host] == HostUsers(userIDs[..i], hostOf, host)
    {
      assert userIDs[..i + 1][..i] == userIDs[..i];
      var v := userIDs[i];
      if v !in hostOf {
        return false, map[];
      }
      var tHost := hostOf[v];
      if tHost in usersHost {
        usersHost := usersHost[tHost := usersHost[tHost] + [v]];
      } else {
        assert [] + [v] == [v];
        usersHost := usersHost[tHost := [v]];
      }
    }
    assert userIDs[..|userIDs|] == userIDs;
    return true, usersHost;
  }

  /** The hosts that answered, each for its users. */
  ghost predicate HostReplies(replies: seq<seq<UserResult>>, answered: seq<string>, gateways: map<string, Gateway>,
                              userIDs: seq<string>, hostOf: map<string, string>) {
    |replies| == |answered| && forall i | 0 <= i < |answered| ::
      && answered[i] in gateways
      && replies[i] == Answer(gateways[answered[i]], HostUsers(userIDs, hostOf, answered[i]))
  }

  /** There are results about a requested user exactly if its host answered. */
  lemma HostResult(replies: seq<seq<UserResult>>, answered: seq<string>, gateways: map<string, Gateway>,
                   userIDs: seq<string>, hostOf: map<string, string>, u: string)
    requires HostReplies(replies, answered, gateways, userIDs, hostOf)
    ensures (exists r | r in Concat(replies) :: r.userID == u) <==> u in userIDs && u in hostOf && hostOf[u] in answered
  {
    if r :| r in Concat(replies) && r.userID == u {
      ConcatExact(replies, r);
      var reply :| reply in replies && r in reply;
      var i :| 0 <= i < |replies| && replies[i] == reply;
      HostUsersExact(userIDs, hostOf, answered[i], u);
    }
    if u in userIDs && u in hostOf && hostOf[u] in answered {
      var i :| 0 <= i < |answered| && answered[i] == hostOf[u];
      HostUsersExact(userIDs, hostOf, answered[i], u);
      var us := HostUsers(userIDs, hostOf, answered[i]);
      var j :| 0 <= j < |us| && us[j] == u;
      assert replies[i] in replies;
      ConcatExact(replies, replies[i][j]);
    }
  }

  /** With one gateway per user: a requested user with an ID, other than the sender,
      is in exactly one list if its host answered, and in neither if it did not. */
  lemma HostsExact(replies: seq<seq<UserResult>>, answered: seq<string>, gateways: map<string, Gateway>,
                   userIDs: seq<string>, hostOf: map<string, string>, sendID: string, u: string)
    requires HostReplies(replies, answered, gateways, userIDs, hostOf)
    requires u in userIDs && u in hostOf && u != "" && u != sendID
    ensures var (online, offline) := Split(Concat(replies), sendID);
            && (u in online || u in offline <==> hostOf[u] in answered)
            && !(u in online && u in offline)
  {
    HostResult(replies, answered, gateways, userIDs, hostOf, u);
    SplitOf(Concat(replies), sendID, u);
  }
}
