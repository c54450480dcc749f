/** What holds of every run of a gateway: accounting of connections and users,
    single login, what a registration and a late unregistration change, and that
    kicked tokens stay out. */
module GatewayRuns {
  import opened Gateway
  import opened Sequences

  // ----------------------------------------------------------------- runs

  /** A gateway that has just been started; tokens may have been issued before. */
  predicate Start(h: Hub) {
    h == Hub(map[], 0, 0, [], [], [], h.tokens, {}, {}, {}, {}, h.issued, 0)
  }

  function Blank(): Hub {
    Hub(map[], 0, 0, [], [], [], map[], {}, {}, {}, {}, {}, 0)
  }

  predicate Possible(policy: int, h: Hub, es: seq<Event>)
    decreases |es|
  {
    es == [] || (Enabled(h, es[0]) && Possible(policy, Step(policy, h, es[0]), es[1..]))
  }

  function Run(policy: int, h: Hub, es: seq<Event>): Hub
    requires Possible(policy, h, es)
    decreases |es|
  {
    if es == [] then h else Run(policy, Step(policy, h, es[0]), es[1..])
  }

  lemma RunCons(policy: int, h: Hub, e: Event, rest: seq<Event>)
    requires Enabled(h, e) && Possible(policy, Step(policy, h, e), rest)
    ensures Possible(policy, h, [e] + rest)
    ensures Run(policy, h, [e] + rest) == Run(policy, Step(policy, h, e), rest)
  {
    assert ([e] + rest)[1..] == rest;
  }

  lemma {:induction false} RunKeepsInv(policy: int, h: Hub, es: seq<Event>)
    requires Inv(policy, h) && Possible(policy, h, es)
    ensures Inv(policy, Run(policy, h, es))
    decreases |es|
  {
    if es != [] {
      StepKeepsInv(policy, h, es[0]);
      RunKeepsInv(policy, Step(policy, h, es[0]), es[1..]);
    }
  }

  lemma StartInv(policy: int, h: Hub)
    requires Start(h)
    ensures Inv(policy, h)
  {
  }

  // ------------------------------------------------------ connection count

  function Conns(users: Users): set<Client> {
    set u, c | u in users && c in users[u] :: c
  }

  /** Connections taken out of the map by a kick, whose unregistration is queued. */
  function Pending(h: Hub): set<Client> {
    set c | c in h.unregisterQ && c in h.registered && !InMap(h.users, c)
  }

  predicate Balanced(h: Hub) {
    h.connNum == |Conns(h.users)| + |Pending(h)|
  }

  lemma Disjoint(a: set<Client>, b: set<Client>, d: set<Client>, r: set<Client>)
    requires a !! b && d <= r && a + b == r - d
    ensures |r| - |d| == |a| + |b|
  {
  }

  lemma InvBalanced(policy: int, h: Hub)
    requires Inv(policy, h)
    ensures Balanced(h)
  {
    assert Conns(h.users) + Pending(h) == h.registered - h.done by {
      forall c | c in h.registered - h.done ensures c in Conns(h.users) + Pending(h) {
        assert InMap(h.users, c) || c in h.closed;
      }
    }
    Disjoint(Conns(h.users), Pending(h), h.done, h.registered);
  }

  // ------------------------------------------------- single steps, exactly

  lemma {:induction false} KeepsAll(f: Test, cs: seq<Client>)
    requires forall c | c in cs :: Passes(f, c)
    ensures Filter(f, cs) == cs
  {
    if cs != [] {
      KeepsAll(f, cs[..|cs| - 1]);
    }
  }

  lemma {:induction false} KeepsNone(f: Test, cs: seq<Client>)
    requires forall c | c in cs :: !Passes(f, c)
    ensures Filter(f, cs) == []
  {
    if cs != [] {
      KeepsNone(f, cs[..|cs| - 1]);
    }
  }

  /** The unregistration of a connection that a kick has taken out of the map
      already changes nothing there: it never removes the successor. */
  lemma LateUnregistration(policy: int, h: Hub)
    requires Inv(policy, h) && h.unregisterQ != [] && !InMap(h.users, h.unregisterQ[0])
    ensures DoUnregister(h).users == h.users
  {
    var c := h.unregisterQ[0];
    assert c in h.unregisterQ && c in Live(h);
    if c.userID in h.users {
      var cs := h.users[c.userID];
      forall d | d in cs ensures d.remoteAddr != c.remoteAddr {
        assert d in Live(h);
      }
      KeepsAll(NotAt({c.remoteAddr}), cs);
    }
  }

  /** On one terminal, a registration leaves the new connection, after the older
      ones if the policy does not kick; the other terminals, and the other users,
      are left exactly as they were. */
  lemma RegistrationExact(policy: int, h: Hub, cached: bool, u: string, p: int)
    requires Inv(policy, h) && h.registerQ != []
    ensures var c := h.registerQ[0];
            var (before, after) := (OnPlatform(UserConns(h.users, u), p),
                                    OnPlatform(UserConns(DoRegister(policy, h, cached).users, u), p));
            after == if u != c.userID || p != c.platformID then before
                     else if Kicks(policy, p) then [c] else before + [c]
  {
    var c := h.registerQ[0];
    var h1 := CheckLogin(policy, h, InfoOf(h.users, c), cached);
    LoginCheckExact(policy, h, c, cached, u, p);
    assert DoRegister(policy, h, cached).users == Added(h1.users, c.userID, c) by {
      assert c.userID !in h.users ==> h1.users == h.users;
    }
    if u == c.userID {
      var left := UserConns(h1.users, u);
      assert UserConns(Added(h1.users, u, c), u) == left + [c];
      assert (left + [c])[..|left|] == left;
    }
  }

  /** The login check of c empties c's terminal if the policy kicks, and nothing
      else. */
  lemma LoginCheckExact(policy: int, h: Hub, c: Client, cached: bool, u: string, p: int)
    requires Inv(policy, h)
    ensures OnPlatform(UserConns(CheckLogin(policy, h, InfoOf(h.users, c), cached).users, u), p) ==
            if u == c.userID && p == c.platformID && Kicks(policy, p) then []
            else OnPlatform(UserConns(h.users, u), p)
  {
    var info := InfoOf(h.users, c);
    if Kicks(policy, c.platformID) && info.clientOK {
      RemovedExact(h.users, c.userID, Addrs(info.oldClients), u);
      TerminalLeft(policy, h, c.userID, c.platformID, p);
    }
  }

  /** A connection on another terminal has another address. */
  lemma OtherAddress(policy: int, h: Hub, u: string, q: int, d: Client)
    requires Inv(policy, h) && d in UserConns(h.users, u) && d.platformID != q
    ensures d.remoteAddr !in Addrs(OnPlatform(UserConns(h.users, u), q))
  {
    var cs := UserConns(h.users, u);
    FilterExact(OnTerminal(q), cs);
    forall o | o in OnPlatform(cs, q) ensures o.remoteAddr != d.remoteAddr {
      assert o in cs && o in Live(h) && d in Live(h);
    }
  }

  /** Taking the connections of terminal q away leaves those of every other
      terminal p. */
  lemma TerminalLeft(policy: int, h: Hub, u: string, q: int, p: int)
    requires Inv(policy, h)
    ensures var cs := UserConns(h.users, u);
            OnPlatform(Without(cs, Addrs(OnPlatform(cs, q))), p) == if p == q then [] else OnPlatform(cs, p)
  {
    var cs := UserConns(h.users, u);
    var (olds, away) := (OnPlatform(cs, q), NotAt(Addrs(OnPlatform(cs, q))));
    FilterExact(OnTerminal(q), cs);
    FilterExact(away, cs);
    if p == q {
      forall d | d in Without(cs, Addrs(olds)) ensures !Passes(OnTerminal(q), d) {
        assert d in cs;
      }
      KeepsNone(OnTerminal(q), Without(cs, Addrs(olds)));
    } else {
      forall d | d in cs && Passes(OnTerminal(p), d) ensures Passes(away, d) {
        OtherAddress(policy, h, u, q, d);
      }
      FilterCommute(away, OnTerminal(p), cs);
    }
  }

  /** A login reported by another node takes away exactly the connections read when
      it came in, if the policy kicks; those made since then stay. */
  lemma ReportedLoginExact(policy: int, h: Hub, cached: bool, u: string, c: Client)
    requires Inv(policy, h) && h.kickQ != []
    ensures var (info, h') := (h.kickQ[0], DoKick(policy, h, cached));
            c in UserConns(h'.users, u) <==>
            c in UserConns(h.users, u) &&
            !(u == info.user && Kicks(policy, info.platformID) && info.clientOK && c in info.oldClients)
  {
    var info := h.kickQ[0];
    if Kicks(policy, info.platformID) && info.clientOK {
      var addrs := Addrs(info.oldClients);
      RemovedExact(h.users, info.user, addrs, u);
      FilterExact(NotAt(addrs), UserConns(h.users, u));
      QueuedKickable(h);
      if c in UserConns(h.users, u) && c.remoteAddr in addrs {
        var d :| d in info.oldClients && d.remoteAddr == c.remoteAddr;
        assert c in h.registered && c !in h.done;
      }
    }
  }

  lemma {:induction false} WithoutTwice(cs: seq<Client>, a: set<string>, b: set<string>)
    ensures Without(Without(cs, a), b) == Without(cs, a + b)
  {
    if cs != [] {
      var (n, rest) := (|cs| - 1, Without(cs[..|cs| - 1], a));
      WithoutTwice(cs[..n], a, b);
      assert (rest + [cs[n]])[..|rest|] == rest;
    }
  }

  lemma AddrsMore(cs: seq<Client>, c: Client)
    ensures Addrs(cs + [c]) == Addrs(cs) + {c.remoteAddr}
  {
    assert forall d | d in cs + [c] :: d in cs || d == c;
    assert (cs + [c])[|cs|] == c && forall d | d in cs :: d in cs + [c];
  }

  lemma KickConnUsers(h: Hub, c: Client, u: string)
    ensures UserConns(KickConn(h, c).users, u) ==
            if u == c.userID then Without(UserConns(h.users, u), {c.remoteAddr}) else UserConns(h.users, u)
  {
    RemovedExact(h.users, c.userID, {c.remoteAddr}, u);
  }

  /** Kicking connections one by one takes away what is at their addresses. */
  lemma {:induction false} KickConnsUsers(h: Hub, cs: seq<Client>, user: string, u: string)
    requires forall c | c in cs :: c.userID == user
    ensures UserConns(KickConns(h, cs).users, u) ==
            if u == user then Without(UserConns(h.users, u), Addrs(cs)) else UserConns(h.users, u)
  {
    if cs == [] {
      KeepsAll(NotAt(Addrs(cs)), UserConns(h.users, u));
    } else {
      var (n, init) := (|cs| - 1, cs[..|cs| - 1]);
      assert cs == init + [cs[n]] && cs[n] in cs;
      KickConnsUsers(h, init, user, u);
      KickConnUsers(KickConns(h, init), cs[n], u);
      WithoutTwice(UserConns(h.users, u), Addrs(init), {cs[n].remoteAddr});
      AddrsMore(init, cs[n]);
    }
  }

  /** A kick by request empties exactly the terminal it names. */
  lemma OfflineExact(policy: int, h: Hub, user: string, p: int, u: string, q: int)
    requires Inv(policy, h)
    ensures OnPlatform(UserConns(Step(policy, h, Offline(user, p)).users, u), q) ==
            if u == user && q == p then [] else OnPlatform(UserConns(h.users, u), q)
  {
    FilterExact(OnTerminal(p), UserConns(h.users, user));
    KickConnsUsers(h, OnPlatform(UserConns(h.users, user), p), user, u);
    TerminalLeft(policy, h, user, p, q);
  }

  // ------------------------------------------------------------ user count

  /** Does a step take a user's last connection without counting it down? A kick by
      request does if all of the user's connections are on the platform, a login
      reported by another node if all of them were there when it came in. */
  predicate LeaksAt(policy: int, h: Hub, e: Event) {
    match e
    case Offline(user, p) => user in h.users && forall c | c in h.users[user] :: c.platformID == p
    case Kick(_) =>
      h.kickQ != [] &&
      var info := h.kickQ[0];
      && Kicks(policy, info.platformID) && info.clientOK
      && info.user in h.users && forall c | c in h.users[info.user] :: c in info.oldClients
    case _ => false
  }

  /** How often that happens in a run. */
  function Leaks(policy: int, h: Hub, es: seq<Event>): nat
    requires Possible(policy, h, es)
    decreases |es|
  {
    if es == [] then 0
    else (if LeaksAt(policy, h, es[0]) then 1 else 0) + Leaks(policy, Step(policy, h, es[0]), es[1..])
  }

  lemma {:induction false} KickConnsLeak(h: Hub, cs: seq<Client>, user: string)
    requires forall c | c in cs :: c.userID == user
    ensures var h' := KickConns(h, cs);
            && h.users.Keys - {user} <= h'.users.Keys <= h.users.Keys
            && h'.leaks == h.leaks + Emptied(h.users, h'.users, user)
  {
    if cs != [] {
      var n := |cs| - 1;
      assert forall c | c in cs[..n] :: c in cs;
      KickConnsLeak(h, cs[..n], user);
      var h1 := KickConns(h, cs[..n]);
      assert cs[n].userID == user;
      assert KickConns(h, cs) == KickConn(h1, cs[n]);
    }
  }

  lemma InEntry(h: Hub, user: string)
    requires UsersOK(h)
    ensures user in h.users <==> UserConns(h.users, user) != []
  {
  }

  lemma OfflineLeaks(policy: int, h: Hub, user: string, p: int)
    requires Inv(policy, h)
    ensures Step(policy, h, Offline(user, p)).leaks == h.leaks + if LeaksAt(policy, h, Offline(user, p)) then 1 else 0
  {
    var (cs, h') := (UserConns(h.users, user), Step(policy, h, Offline(user, p)));
    var olds := OnPlatform(cs, p);
    FilterExact(OnTerminal(p), cs);
    KickConnsLeak(h, olds, user);
    KickConnsUsers(h, olds, user, user);
    StepKeepsInv(policy, h, Offline(user, p));
    InEntry(h', user);
    WithoutAll(policy, h, user, olds);
  }

  /** Nothing is left of a user's connections exactly if all of them go. */
  lemma WithoutAll(policy: int, h: Hub, user: string, olds: seq<Client>)
    requires Inv(policy, h) && Kickable(h, user, olds)
    ensures var cs := UserConns(h.users, user);
            Without(cs, Addrs(olds)) == [] <==> forall c | c in cs :: c in olds
  {
    var cs := UserConns(h.users, user);
    FilterExact(NotAt(Addrs(olds)), cs);
    forall c | c in cs ensures c.remoteAddr in Addrs(olds) <==> c in olds {
      if c.remoteAddr in Addrs(olds) {
        var d :| d in olds && d.remoteAddr == c.remoteAddr;
      }
    }
    if c :| c in cs && c !in olds {
      assert c in Without(cs, Addrs(olds));
    }
    if Without(cs, Addrs(olds)) != [] {
      assert Without(cs, Addrs(olds))[0] in Without(cs, Addrs(olds));
    }
  }

  lemma KickLeaks(policy: int, h: Hub, cached: bool)
    requires Inv(policy, h) && h.kickQ != []
    ensures DoKick(policy, h, cached).leaks == h.leaks + if LeaksAt(policy, h, Kick(cached)) then 1 else 0
  {
    var info := h.kickQ[0];
    QueuedKickable(h);
    WithoutAll(policy, h, info.user, info.oldClients);
  }

  lemma RegisterLeaksNot(policy: int, h: Hub, cached: bool)
    requires h.registerQ != []
    ensures DoRegister(policy, h, cached).leaks == h.leaks
  {
  }

  lemma StepLeaks(policy: int, h: Hub, e: Event)
    requires Inv(policy, h) && Enabled(h, e)
    ensures Step(policy, h, e).leaks == h.leaks + if LeaksAt(policy, h, e) then 1 else 0
  {
    if e.Kick? {
      KickLeaks(policy, h, e.cached);
    } else if e.Offline? {
      OfflineLeaks(policy, h, e.user, e.platformID);
    } else if e.Register? {
      RegisterLeaksNot(policy, h, e.cached);
    }
  }

  lemma {:induction false} RunLeaks(policy: int, h: Hub, es: seq<Event>)
    requires Inv(policy, h) && Possible(policy, h, es)
    ensures Run(policy, h, es).leaks == h.leaks + Leaks(policy, h, es)
    decreases |es|
  {
    if es != [] {
      StepLeaks(policy, h, es[0]);
      StepKeepsInv(policy, h, es[0]);
      RunLeaks(policy, Step(policy, h, es[0]), es[1..]);
    }
  }

  predicate OnlyRegistration(es: seq<Event>) {
    forall e | e in es :: e.Connect? || e.Drop? || e.Register? || e.Unregister?
  }

  lemma {:induction false} NoLeaks(policy: int, h: Hub, es: seq<Event>)
    requires Possible(policy, h, es) && OnlyRegistration(es)
    ensures Leaks(policy, h, es) == 0
    decreases |es|
  {
    if es != [] {
      assert es[0] in es && forall e | e in es[1..] :: e in es;
      NoLeaks(policy, Step(policy, h, es[0]), es[1..]);
    }
  }

  // -------------------------------------------------------- main theorems

  /** Accounting in every state a gateway can reach: the connection counter is the
      number of connections in the map and of kicked ones still to be
      unregistered, so the map's size when none is; the user counter exceeds the
      number of users in the map by the number of kicks that emptied a user. */
  lemma Accounting(policy: int, h0: Hub, es: seq<Event>)
    requires Start(h0) && Possible(policy, h0, es)
    ensures var h := Run(policy, h0, es);
            && Balanced(h) && (Pending(h) == {} ==> h.connNum == |Conns(h.users)|)
            && h.userNum == |h.users.Keys| + Leaks(policy, h0, es)
            && (OnlyRegistration(es) ==> h.userNum == |h.users.Keys|)
  {
    StartInv(policy, h0);
    RunKeepsInv(policy, h0, es);
    InvBalanced(policy, Run(policy, h0, es));
    RunLeaks(policy, h0, es);
    if OnlyRegistration(es) {
      NoLeaks(policy, h0, es);
    }
  }

  /** The map in every state a gateway can reach: no empty entry, no connection
      twice, none under another user's key; and one connection a terminal where
      the policy kicks. */
  lemma SingleLoginAlways(policy: int, h0: Hub, es: seq<Event>, u: string)
    requires Start(h0) && Possible(policy, h0, es) && u in Run(policy, h0, es).users
    ensures var cs := Run(policy, h0, es).users[u];
            && cs != [] && (forall c | c in cs :: c.userID == u)
            && (forall i, j | 0 <= i < j < |cs| :: cs[i] != cs[j])
            && (policy == ALL_LOGIN_BUT_SAME_TERM_KICK ==>
                  forall i, j | 0 <= i < j < |cs| :: cs[i].platformID != cs[j].platformID)
            && (policy == PC_AND_OTHER ==>
                  forall i, j | 0 <= i < j < |cs| && PlatformClass(cs[i].platformID) != "PC" ::
                    cs[i].platformID != cs[j].platformID)
  {
    StartInv(policy, h0);
    RunKeepsInv(policy, h0, es);
    var h := Run(policy, h0, es);
    var cs := h.users[u];
    assert SingleLogin(policy, h.users) && NoDup(cs);
    forall i, j | 0 <= i < j < |cs| && Kicks(policy, cs[i].platformID) ensures cs[i].platformID != cs[j].platformID {
      assert cs[i] in cs && cs[j] in cs;
    }
  }

  lemma SomeoneLeft(h: Hub)
    requires UsersOK(h) && QueuesOK(h)
    ensures h.users != map[] ==> h.done != h.known
  {
    if h.users != map[] {
      var u :| u in h.users;
      assert h.users[u][0] in h.users[u];
    }
  }

  /** Once every connection ever made is closed and the unregistration queue is
      empty, nothing is left in the map or in the connection counter; only the
      kicks that emptied a user are left in the user counter. */
  lemma AllGone(policy: int, h0: Hub, es: seq<Event>)
    requires Start(h0) && Possible(policy, h0, es)
    requires Run(policy, h0, es).closed == Run(policy, h0, es).known && Run(policy, h0, es).unregisterQ == []
    ensures var h := Run(policy, h0, es);
            h.users == map[] && h.connNum == 0 && h.userNum == Leaks(policy, h0, es)
  {
    StartInv(policy, h0);
    RunKeepsInv(policy, h0, es);
    RunLeaks(policy, h0, es);
    var h := Run(policy, h0, es);
    SomeoneLeft(h);
    assert h.registered == h.done;
  }

  /** A gateway with one connection, as registered. */
  function OnlyOne(c: Client): Hub {
    Hub(map[c.userID := [c]], 1, 1, [], [], [], map[], {}, {c}, {c}, {}, {}, 0)
  }

  lemma KickTheOnly(policy: int, c: Client)
    ensures Step(policy, OnlyOne(c), Offline(c.userID, c.platformID)) ==
            OnlyOne(c).(users := map[], unregisterQ := [c], closed := {c}, leaks := 1)
  {
    KeepsAll(OnTerminal(c.platformID), [c]);
    KeepsNone(NotAt({c.remoteAddr}), [c]);
    assert [c][..0] == [];
    assert KickConns(OnlyOne(c), [c]) == KickConn(OnlyOne(c), c);
  }

  lemma RegisterTheOnly(policy: int, c: Client)
    ensures var h0 := Blank();
            Start(h0) && Possible(policy, h0, [Connect(c), Register(true)])
            && Run(policy, h0, [Connect(c), Register(true)]) == OnlyOne(c)
  {
    var h0 := Blank();
    var h1 := h0.(known := {c}, registerQ := [c]);
    assert Step(policy, h0, Connect(c)) == h1;
    assert Step(policy, h1, Register(true)) == OnlyOne(c);
    RunCons(policy, h1, Register(true), []);
    assert [Register(true)] + [] == [Register(true)] && [Connect(c)] + [Register(true)] == [Connect(c), Register(true)];
    RunCons(policy, h0, Connect(c), [Register(true)]);
  }

  /** Two runs one after the other. */
  lemma {:induction false} RunConcat(policy: int, h: Hub, es: seq<Event>, rest: seq<Event>)
    requires Possible(policy, h, es) && Possible(policy, Run(policy, h, es), rest)
    ensures Possible(policy, h, es + rest) && Run(policy, h, es + rest) == Run(policy, Run(policy, h, es), rest)
    decreases |es|
  {
    if es == [] {
      assert es + rest == rest;
    } else {
      RunConcat(policy, Step(policy, h, es[0]), es[1..], rest);
      assert es + rest == [es[0]] + (es[1..] + rest);
      RunCons(policy, h, es[0], es[1..] + rest);
    }
  }

  /** A run after which a user without connections is still counted. */
  lemma CountedForever(policy: int, c: Client)
    ensures var (h0, es) := (Blank(),
                             [Connect(c), Register(true)] + [Offline(c.userID, c.platformID), Unregister]);
            && Start(h0) && Possible(policy, h0, es)
            && var h := Run(policy, h0, es);
            h.users == map[] && h.userNum == 1 && h.connNum == 0 && h.known == h.done == {c}
  {
    RegisterTheOnly(policy, c);
    KickTheOnly(policy, c);
    var h3 := Step(policy, OnlyOne(c), Offline(c.userID, c.platformID));
    RunCons(policy, h3, Unregister, []);
    assert [Unregister] + [] == [Unregister];
    RunCons(policy, OnlyOne(c), Offline(c.userID, c.platformID), [Unregister]);
    assert [Offline(c.userID, c.platformID)] + [Unregister] == [Offline(c.userID, c.platformID), Unregister];
    RunConcat(policy, Blank(), [Connect(c), Register(true)],
              [Offline(c.userID, c.platformID), Unregister]);
  }

  /** In every reachable state a registered connection that is out of the map is
      closed, and its unregistration is queued or done. */
  lemma OutMeansClosed(policy: int, h0: Hub, es: seq<Event>, c: Client)
    requires Start(h0) && Possible(policy, h0, es)
    requires c in Run(policy, h0, es).registered && !InMap(Run(policy, h0, es).users, c)
    ensures var h := Run(policy, h0, es);
            c in h.closed && (c in h.done || c in h.unregisterQ)
  {
    StartInv(policy, h0);
    RunKeepsInv(policy, h0, es);
    assert PresentOK(Run(policy, h0, es), {});
  }

  // ------------------------------------------------ the order of the queues

  /** The counter stays right exactly if the connection that is unregistered was
      registered before. */
  lemma BalancedIff(policy: int, h: Hub)
    requires Inv(policy, h) && h.unregisterQ != []
    ensures Balanced(DoUnregister(h)) <==> h.unregisterQ[0] in h.registered
  {
    var (c, h') := (h.unregisterQ[0], DoUnregister(h));
    InvBalanced(policy, h);
    if c in h.registered {
      StepKeepsInv(policy, h, Unregister);
      InvBalanced(policy, h');
    } else {
      NotInMap(policy, h, c);
      assert c in h.unregisterQ;
      LateUnregistration(policy, h);
      assert Pending(h') == Pending(h);
    }
  }

  lemma NotInMap(policy: int, h: Hub, c: Client)
    requires Inv(policy, h) && c !in h.registered
    ensures !InMap(h.users, c)
  {
  }

  /** The event loop may take a connection's unregistration before its
      registration; the dead connection then stays in the map, uncounted. */
  lemma EarlyUnregistration(policy: int, c: Client)
    ensures var h0 := Blank();
            && Start(h0) && Possible(policy, h0, [Connect(c), Drop(c)])
            && var h := Run(policy, h0, [Connect(c), Drop(c)]);
            && h.unregisterQ == [c] && h.registerQ == [c]
            && var h' := DoRegister(policy, DoUnregister(h), true);
            && h'.registerQ == [] && h'.unregisterQ == [] && h'.users == map[c.userID := [c]]
            && c in h'.closed && h'.connNum == 0
  {
    var h0 := Blank();
    var h1 := h0.(known := {c}, registerQ := [c]);
    var es := [Connect(c), Drop(c)];
    assert es[1..] == [Drop(c)] && es[1..][1..] == [];
    assert Step(policy, h0, Connect(c)) == h1;
    assert Possible(policy, h1, [Drop(c)]);
    assert Run(policy, h1, [Drop(c)]) == Close(h1, c);
  }

  // ---------------------------------------------------------------- tokens

  /** A token the connection check refuses. */
  predicate Refused(tokens: Tokens, key: TokenKey, token: string) {
    key in tokens && token in tokens[key] ==> tokens[key][token] == KICKED_TOKEN
  }

  lemma KickTokensRefuse(tokens: Tokens, key: TokenKey, new': string, k: TokenKey, token: string)
    requires Refused(tokens, k, token)
    ensures Refused(KickTokens(tokens, key, new'), k, token)
  {
  }

  lemma {:induction false} KickConnsTokens(h: Hub, cs: seq<Client>)
    ensures KickConns(h, cs).tokens == h.tokens && KickConns(h, cs).issued == h.issued
  {
    if cs != [] {
      KickConnsTokens(h, cs[..|cs| - 1]);
    }
  }

  lemma StepRefuses(policy: int, h: Hub, e: Event, key: TokenKey, token: string)
    requires Enabled(h, e) && token in h.issued && Refused(h.tokens, key, token)
    ensures token in Step(policy, h, e).issued && Refused(Step(policy, h, e).tokens, key, token)
  {
    match e
    case Offline(user, p) => KickConnsTokens(h, OnPlatform(UserConns(h.users, user), p));
    case Register(cached) =>
      var info := InfoOf(h.users, h.registerQ[0]);
      KickTokensRefuse(h.tokens, KeyOf(info.user, info.platformID), info.token, key, token);
    case Kick(cached) =>
      var info := h.kickQ[0];
      KickTokensRefuse(h.tokens, KeyOf(info.user, info.platformID), info.token, key, token);
    case _ =>
  }

  /** A token once refused is refused for the rest of every run. */
  lemma {:induction false} KickedStaysOut(policy: int, h: Hub, es: seq<Event>, key: TokenKey, token: string)
    requires Possible(policy, h, es) && token in h.issued && Refused(h.tokens, key, token)
    ensures Refused(Run(policy, h, es).tokens, key, token)
    decreases |es|
  {
    if es != [] {
      StepRefuses(policy, h, es[0], key, token);
      KickedStaysOut(policy, Step(policy, h, es[0]), es[1..], key, token);
    }
  }

  /** The login that a step of the event loop checks. */
  function Checked(h: Hub, e: Event): KickInfo
    requires (e.Register? && h.registerQ != []) || (e.Kick? && h.kickQ != [])
  {
    if e.Register? then InfoOf(h.users, h.registerQ[0]) else h.kickQ[0]
  }

  /** A login, registering here or reported by another node, that kicks older
      connections on its terminal and reaches the token cache. */
  predicate Replaces(policy: int, h: Hub, e: Event) {
    && (e == Register(true) || e == Kick(true)) && Enabled(h, e)
    && Kicks(policy, Checked(h, e).platformID) && Checked(h, e).clientOK
  }

  /** Such a login has every other token of its terminal refused; no token is
      forgotten, and those of other terminals are as they were. */
  lemma LoginKicks(policy: int, h: Hub, e: Event, token: string, k: TokenKey)
    requires Replaces(policy, h, e)
    ensures var (info, tokens') := (Checked(h, e), Step(policy, h, e).tokens);
            var key := KeyOf(info.user, info.platformID);
            && (token != info.token ==> Refused(tokens', key, token))
            && (k in tokens' <==> k in h.tokens)
            && (k in h.tokens ==> tokens'[k].Keys == h.tokens[k].Keys && (k != key ==> tokens'[k] == h.tokens[k]))
            && (key in h.tokens && info.token in h.tokens[key] ==>
                  tokens'[key][info.token] == h.tokens[key][info.token])
  {
    var info := Checked(h, e);
    var h1 := CheckLogin(policy, h, info, true);
    assert h1.tokens == KickTokens(h.tokens, KeyOf(info.user, info.platformID), info.token);
    if e.Register? {
      assert h.registerQ[0].userID in h.users;
      assert Step(policy, h, e) == AddConn(h1, h.registerQ[0]);
    }
  }

  /** Every token stored has been issued. */
  predicate Issued(h: Hub) {
    forall k | k in h.tokens :: forall t | t in h.tokens[k] :: t in h.issued
  }

  lemma StepIssued(policy: int, h: Hub, e: Event)
    requires Issued(h) && Enabled(h, e)
    ensures Issued(Step(policy, h, e))
  {
    match e
    case Offline(user, p) => KickConnsTokens(h, OnPlatform(UserConns(h.users, user), p));
    case _ =>
  }

  lemma {:induction false} RunIssued(policy: int, h: Hub, es: seq<Event>)
    requires Issued(h) && Possible(policy, h, es)
    ensures Issued(Run(policy, h, es))
    decreases |es|
  {
    if es != [] {
      StepIssued(policy, h, es[0]);
      RunIssued(policy, Step(policy, h, es[0]), es[1..]);
    }
  }

  /** Kicked tokens stay out: once a login has replaced older connections of its
      terminal, every other token that was stored for the terminal is refused for
      the rest of every run. */
  lemma KickedForGood(policy: int, h0: Hub, before: seq<Event>, e: Event, es: seq<Event>, token: string)
    requires Start(h0) && Issued(h0) && Possible(policy, h0, before)
    requires Replaces(policy, Run(policy, h0, before), e)
    requires Possible(policy, Step(policy, Run(policy, h0, before), e), es)
    requires var h := Run(policy, h0, before);
             var (info, key) := (Checked(h, e), KeyOf(Checked(h, e).user, Checked(h, e).platformID));
             key in h.tokens && token in h.tokens[key] && token != info.token
    ensures var h := Run(policy, h0, before);
            Refused(Run(policy, Step(policy, h, e), es).tokens,
                    KeyOf(Checked(h, e).user, Checked(h, e).platformID), token)
  {
    RunIssued(policy, h0, before);
    var h := Run(policy, h0, before);
    var key := KeyOf(Checked(h, e).user, Checked(h, e).platformID);
    assert token in h.issued;
    LoginKicks(policy, h, e, token, key);
    StepIssued(policy, h, e);
    assert key in Step(policy, h, e).tokens && token in Step(policy, h, e).tokens[key];
    KickedStaysOut(policy, Step(policy, h, e), es, key, token);
  }
}
