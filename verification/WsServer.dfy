/** The gateway as it is written: a user map whose lists are rebuilt in place, an
    event loop over three queues, and the request handlers beside it. Every
    operation is one event of the registry's state machine. */
module WsServer {
  import opened Messages
  import opened Gateway
  import opened GatewayRuns
  import opened LoginEffects

  class UserMap {
    var m: Users

    constructor ()
      ensures m == map[]
    {
      m := map[];
    }

    method Get(key: string, platformID: int) returns (clients: seq<Client>, userOK: bool, clientOK: bool)
      ensures clients == OnPlatform(UserConns(m, key), platformID)
      ensures userOK == (key in m) && clientOK == (clients != [])
    {
      clients, userOK := [], key in m;
      if userOK {
        var all := m[key];
        for i := 0 to |all|
          invariant clients == OnPlatform(all[..i], platformID)
        {
          assert all[..i + 1][..i] == all[..i];
          if all[i].platformID == platformID {
            clients := clients + [all[i]];
          }
        }
        assert all[..|all|] == all;
      }
      clientOK := |clients| > 0;
    }

    method Set(key: string, v: Client)
      modifies this
      ensures m == Added(old(m), key, v)
    {
      if key in m {
        m := m[key := m[key] + [v]];
      } else {
        assert UserConns(m, key) + [v] == [v];
        m := m[key := [v]];
      }
    }

    method Delete(key: string, connRemoteAddr: string) returns (isDeleteUser: bool)
      modifies this
      ensures m == Removed(old(m), key, {connRemoteAddr})
      ensures isDeleteUser == (key in old(m) && key !in m)
    {
      isDeleteUser := Keep(key, {connRemoteAddr});
    }

    method DeleteClients(key: string, clients: seq<Client>) returns (isDeleteUser: bool)
      modifies this
      ensures m == Removed(old(m), key, Addrs(clients))
      ensures isDeleteUser == (key in old(m) && key !in m)
    {
      var addrs := {};
      for i := 0 to |clients|
        invariant addrs == Addrs(clients[..i])
      {
        addrs := addrs + {clients[i].remoteAddr};
        assert forall c | c in clients[..i + 1] :: c in clients[..i] || c == clients[i];
        assert clients[..i + 1][i] == clients[i] && forall c | c in clients[..i] :: c in clients[..i + 1];
      }
      assert clients[..|clients|] == clients;
      isDeleteUser := Keep(key, addrs);
    }

    /** The loop both deletions share: the list without the given addresses is
        stored, or the entry deleted if nothing is left. */
    method Keep(key: string, addrs: set<string>) returns (isDeleteUser: bool)
      modifies this
      ensures m == Removed(old(m), key, addrs)
      ensures isDeleteUser == (key in old(m) && key !in m)
    {
      if key !in m {
        return false;
      }
      var (a, all) := ([], m[key]);
      for i := 0 to |all|
        invariant a == Without(all[..i], addrs)
      {
        assert all[..i + 1][..i] == all[..i];
        if all[i].remoteAddr !in addrs {
          a := a + [all[i]];
        }
      }
      assert all[..|all|] == all;
      if |a| == 0 {
        m := m - {key};
        return true;
      }
      m := m[key := a];
      return false;
    }
  }

  // ------------------------------------------------------------ handshake

  datatype Result<T, E> = Ok(value: T) | Err(error: E)

  /** What a token was signed for. */
  datatype TokenClaim = TokenClaim(userID: string, platformID: int)

  /** A connection request: its query, the number its platform is parsed to (None
      if it is none), and what its token decodes to (None if it does not). */
  datatype Query = Query(token: string, userID: string, platform: string,
                         number: Option<int>, claim: Option<TokenClaim>)

  datatype WSArgs = WSArgs(token: string, userID: string, platformID: int)

  datatype ConnError =
    | OverMaxConnNum | TokenEmpty | UserIDEmpty | PlatformIDEmpty | PlatformIDNotInt
    | TokenMalformed | TokenInvalid | CacheFailed | TokenKicked | TokenUnknown | TokenNotExist

  predicate Filled(q: Query) {
    q.token != "" && q.userID != "" && q.platform != ""
  }

  /** Every check that needs no state passes. */
  predicate Genuine(q: Query) {
    Filled(q) && q.number.Some? && q.claim == Some(TokenClaim(q.userID, q.number.value))
  }

  /** What is stored about the token of a genuine request. */
  function Stored(tokens: Tokens, q: Query): Option<int>
    requires q.number.Some?
  {
    Status(tokens, q.userID, q.number.value, q.token)
  }

  // --------------------------------------------------------------- server

  function Offlines(userIDs: seq<string>, platformID: int): seq<Event> {
    seq(|userIDs|, i requires 0 <= i < |userIDs| => Offline(userIDs[i], platformID))
  }

  lemma {:induction false} RunAppend(policy: int, h: Hub, es: seq<Event>, e: Event)
    requires Possible(policy, h, es) && Enabled(Run(policy, h, es), e)
    ensures Possible(policy, h, es + [e])
    ensures Run(policy, h, es + [e]) == Step(policy, Run(policy, h, es), e)
    decreases |es|
  {
    if es == [] {
      assert [e][1..] == [] && es + [e] == [e];
    } else {
      assert (es + [e])[1..] == es[1..] + [e];
      RunAppend(policy, Step(policy, h, es[0]), es[1..], e);
    }
  }

  function Closed(cs: set<Client>): set<Client>
    reads cs
  {
    set c | c in cs && c.closed
  }

  class WsServer {
    const policy: int
    const wsMaxConnNum: int
    const clients: UserMap
    var onlineUserNum: int
    var onlineUserConnNum: int
    var registerChan: seq<Client>
    var unregisterChan: seq<Client>
    var kickHandlerChan: seq<KickInfo>
    var cache: Tokens
    ghost var known: set<Client>
    ghost var registered: set<Client>
    ghost var done: set<Client>
    ghost var issued: set<string>
    ghost var leaks: nat

    ghost function View(): Hub
      reads this, clients, known
    {
      Hub(clients.m, onlineUserNum, onlineUserConnNum, registerChan, unregisterChan, kickHandlerChan,
          cache, Closed(known), known, registered, done, issued, leaks)
    }

    ghost predicate Valid()
      reads this, clients, known
    {
      Inv(policy, View())
    }

    constructor (policy: int, wsMaxConnNum: int, cache: Tokens, ghost issued: set<string>)
      ensures Valid() && fresh(clients) && Start(View())
      ensures this.policy == policy && this.wsMaxConnNum == wsMaxConnNum
      ensures this.cache == cache && this.issued == issued
    {
      this.policy, this.wsMaxConnNum, this.cache, this.issued := policy, wsMaxConnNum, cache, issued;
      clients := new UserMap();
      onlineUserNum, onlineUserConnNum := 0, 0;
      registerChan, unregisterChan, kickHandlerChan := [], [], [];
      known, registered, done, leaks := {}, {}, {}, 0;
    }

    /** ParseWSArgs: who may connect. */
    method ParseWSArgs(q: Query, cached: bool) returns (r: Result<WSArgs, ConnError>)
      ensures r.Ok? <==>
                && onlineUserConnNum < wsMaxConnNum && q.token != "" && q.userID != "" && q.platform != ""
                && q.number.Some? && q.claim == Some(TokenClaim(q.userID, q.number.value))
                && cached && Stored(cache, q) == Some(0)
      ensures r.Ok? ==> r.value == WSArgs(q.token, q.userID, q.number.value)
      ensures r.Ok? ==> !Refused(cache, KeyOf(q.userID, q.number.value), q.token)
      ensures r == Err(OverMaxConnNum) <==> onlineUserConnNum >= wsMaxConnNum
      ensures onlineUserConnNum < wsMaxConnNum && Genuine(q) ==>
                && (r == Err(CacheFailed) <==> !cached)
                && (r == Err(TokenKicked) <==> cached && Stored(cache, q) == Some(2))
                && (r == Err(TokenNotExist) <==> cached && Stored(cache, q) == None)
                && (r == Err(TokenUnknown) <==>
                    cached && Stored(cache, q).Some? && Stored(cache, q) != Some(0) && Stored(cache, q) != Some(2))
      ensures onlineUserConnNum < wsMaxConnNum ==>
                && (r == Err(TokenEmpty) <==> q.token == "")
                && (r == Err(UserIDEmpty) <==> q.token != "" && q.userID == "")
                && (r == Err(PlatformIDEmpty) <==> q.token != "" && q.userID != "" && q.platform == "")
                && (r == Err(PlatformIDNotInt) <==> Filled(q) && q.number.None?)
                && (r == Err(TokenMalformed) <==> Filled(q) && q.number.Some? && q.claim.None?)
                && (r == Err(TokenInvalid) <==>
                    && Filled(q) && q.number.Some? && q.claim.Some?
                    && q.claim.value != TokenClaim(q.userID, q.number.value))
    {
      if onlineUserConnNum >= wsMaxConnNum {
        return Err(OverMaxConnNum);
      }
      if q.token == "" {
        return Err(TokenEmpty);
      }
      if q.userID == "" {
        return Err(UserIDEmpty);
      }
      if q.platform == "" {
        return Err(PlatformIDEmpty);
      }
      if q.number.None? {
        return Err(PlatformIDNotInt);
      }
      if q.claim.None? {
        return Err(TokenMalformed);
      }
      if q.claim.value.userID != q.userID || q.claim.value.platformID != q.number.value {
        return Err(TokenInvalid);
      }
      if !cached {
        return Err(CacheFailed);
      }
      var key := KeyOf(q.userID, q.number.value);
      if key in cache && q.token in cache[key] {
        var status := cache[key][q.token];
        if status == NORMAL_TOKEN {
          return Ok(WSArgs(q.token, q.userID, q.number.value));
        } else if status == KICKED_TOKEN {
          return Err(TokenKicked);
        }
        return Err(TokenUnknown);
      }
      return Err(TokenNotExist);
    }

    /** A new connection is queued for registration. */
    method QueueConn(args: WSArgs, remoteAddr: string) returns (c: Client)
      modifies this`registerChan, this`known
      ensures fresh(c) && View() == old(View()).(known := old(known) + {c}, registerQ := old(registerChan) + [c])
      ensures c.userID == args.userID && c.platformID == args.platformID && c.token == args.token
      ensures c.remoteAddr == remoteAddr
    {
      c := new Client(args.userID, args.platformID, remoteAddr, args.token);
      registerChan := registerChan + [c];
      known := known + {c};
      assert Closed(known) == old(Closed(known));
    }

    /** wsHandler: an admitted connection is queued for registration. */
    method HandleConn(q: Query, remoteAddr: string, cached: bool) returns (r: Result<Client, ConnError>)
      requires Valid() && forall d | d in Live(View()) :: d.remoteAddr != remoteAddr
      modifies this
      ensures Valid()
      ensures r.Err? ==> View() == old(View())
      ensures r.Ok? ==> fresh(r.value) && Enabled(old(View()), Connect(r.value))
      ensures r.Ok? ==> View() == Step(policy, old(View()), Connect(r.value))
      ensures r.Ok? ==> r.value.userID == q.userID && Some(r.value.platformID) == q.number
      ensures r.Ok? ==> r.value.remoteAddr == remoteAddr && r.value.token == q.token
                        && !Refused(cache, KeyOf(r.value.userID, r.value.platformID), r.value.token)
    {
      var args := ParseWSArgs(q, cached);
      if args.Err? {
        return Err(args.error);
      }
      ghost var h := View();
      var c := QueueConn(args.value, remoteAddr);
      ConnectKeeps(policy, h, c);
      return Ok(c);
    }

    /** Client.close. */
    method CloseClient(c: Client)
      requires c in known
      modifies this`unregisterChan, c
      ensures View() == Close(old(View()), c)
    {
      if c.closed {
        return;
      }
      c.closed := true;
      unregisterChan := unregisterChan + [c];
    }

    /** The end of a connection's reader. */
    method DropConn(c: Client)
      requires Valid() && c in known
      modifies this`unregisterChan, c
      ensures Valid() && View() == Step(policy, old(View()), Drop(c))
    {
      StepKeepsInv(policy, View(), Drop(c));
      CloseClient(c);
    }

    /** The closing loop of multiTerminalLoginChecker. */
    method KickAll(olds: seq<Client>)
      requires forall c | c in olds :: c in known
      modifies this`unregisterChan, olds
      ensures View() == CloseAll(old(View()), olds)
    {
      for i := 0 to |olds|
        invariant View() == CloseAll(old(View()), olds[..i])
      {
        assert olds[..i + 1][..i] == olds[..i];
        CloseClient(olds[i]);
      }
      assert olds[..|olds|] == olds;
    }

    /** The token loop of multiTerminalLoginChecker. */
    method KickStored(key: TokenKey, token: string)
      modifies this`cache
      ensures cache == KickTokens(old(cache), key, token)
    {
      if key !in cache {
        return;
      }
      var m := cache[key];
      var todo := m.Keys;
      while todo != {}
        invariant todo <= m.Keys == cache[key].Keys
        invariant forall t | t in m :: m[t] == if t in todo || t == token then cache[key][t] else KICKED_TOKEN
      {
        var t :| t in todo;
        if t != token {
          m := m[t := KICKED_TOKEN];
        }
        todo := todo - {t};
      }
      assert m == KickTokens(cache, key, token)[key];
      cache := cache[key := m];
    }

    method MultiTerminalLoginChecker(info: KickInfo, cached: bool)
      requires forall c | c in info.oldClients :: c in known
      modifies this`unregisterChan, this`cache, clients, info.oldClients
      ensures View() == CheckLogin(policy, old(View()), info, cached)
    {
      if policy == PC_AND_OTHER {
        if PlatformClass(info.platformID) == "PC" {
          return;
        }
      } else if policy != ALL_LOGIN_BUT_SAME_TERM_KICK {
        return;
      }
      if !info.clientOK {
        return;
      }
      var _ := clients.DeleteClients(info.user, info.oldClients);
      KickAll(info.oldClients);
      if !cached {
        return;
      }
      KickStored(KeyOf(info.user, info.platformID), info.token);
    }

    /** What both branches of registerClient end with. */
    method Enter(client: Client)
      requires registerChan != [] && client == registerChan[0]
      modifies this, clients
      ensures View() == AddConn(old(View()), client)
    {
      clients.Set(client.userID, client);
      onlineUserConnNum := onlineUserConnNum + 1;
      registerChan := registerChan[1..];
      registered := registered + {client};
    }

    method RegisterClient(cached: bool)
      requires registerChan != []
      requires forall c | c in InfoOf(clients.m, registerChan[0]).oldClients :: c in known
      modifies this, clients, known
      ensures View() == DoRegister(policy, old(View()), cached)
    {
      var client := registerChan[0];
      var oldClients, userOK, clientOK := clients.Get(client.userID, client.platformID);
      if !userOK {
        Enter(client);
        onlineUserNum := onlineUserNum + 1;
      } else {
        var info := KickInfo(clientOK, oldClients, client.userID, client.platformID, client.token);
        assert info == InfoOf(clients.m, client);
        MultiTerminalLoginChecker(info, cached);
        Enter(client);
      }
    }

    method UnregisterClient()
      requires unregisterChan != []
      modifies this, clients
      ensures View() == DoUnregister(old(View()))
    {
      var client := unregisterChan[0];
      var isDeleteUser := clients.Delete(client.userID, client.remoteAddr);
      if isDeleteUser {
        onlineUserNum := onlineUserNum - 1;
      }
      onlineUserConnNum := onlineUserConnNum - 1;
      unregisterChan := unregisterChan[1..];
      done := done + {client};
    }

    method KickReported(cached: bool)
      requires kickHandlerChan != [] && forall c | c in kickHandlerChan[0].oldClients :: c in known
      modifies this, clients, known
      ensures View() == DoKick(policy, old(View()), cached)
    {
      var info := kickHandlerChan[0];
      MultiTerminalLoginChecker(info, cached);
      kickHandlerChan := kickHandlerChan[1..];
      leaks := leaks + Emptied(old(clients.m), clients.m, info.user);
    }

    /** The event loop: one choice of its select. */
    method Select(e: Event)
      requires Valid() && Enabled(View(), e) && (e.Register? || e.Unregister? || e.Kick?)
      modifies this, clients, known
      ensures Valid() && View() == Step(policy, old(View()), e)
    {
      StepKeepsInv(policy, View(), e);
      match e
      case Register(cached) =>
        var c := registerChan[0];
        FilterExact(OnTerminal(c.platformID), UserConns(clients.m, c.userID));
        RegisterClient(cached);
      case Unregister => UnregisterClient();
      case Kick(cached) =>
        assert forall c | c in View().kickQ[0].oldClients :: c in View().registered;
        KickReported(cached);
    }

    method KickUserConn(client: Client)
      requires client in known
      modifies this`unregisterChan, this`leaks, clients, client
      ensures View() == KickConn(old(View()), client)
    {
      var _ := clients.DeleteClients(client.userID, [client]);
      assert Addrs([client]) == {client.remoteAddr};
      leaks := leaks + Emptied(old(clients.m), clients.m, client.userID);
      CloseClient(client);
    }

    /** The kicking loop of KickUserOffline. */
    method KickEach(olds: seq<Client>)
      requires forall c | c in olds :: c in known
      modifies this`unregisterChan, this`leaks, clients, olds
      ensures View() == KickConns(old(View()), olds)
    {
      for i := 0 to |olds|
        invariant View() == KickConns(old(View()), olds[..i])
      {
        assert olds[..i + 1][..i] == olds[..i];
        KickUserConn(olds[i]);
      }
      assert olds[..|olds|] == olds;
    }

    /** KickUserOffline, for one user. */
    method KickPlatform(user: string, platformID: int)
      requires Valid()
      modifies this, clients, known
      ensures Valid() && View() == Step(policy, old(View()), Offline(user, platformID)) && known == old(known)
    {
      StepKeepsInv(policy, View(), Offline(user, platformID));
      var olds, _, ok := clients.Get(user, platformID);
      FilterExact(OnTerminal(platformID), UserConns(clients.m, user));
      if ok {
        KickEach(olds);
      }
    }

    /** KickUserOffline: user after user. */
    method KickUserOffline(userIDs: seq<string>, platformID: int)
      requires Valid()
      modifies this, clients, known
      ensures Valid() && Possible(policy, old(View()), Offlines(userIDs, platformID))
      ensures View() == Run(policy, old(View()), Offlines(userIDs, platformID))
    {
      for i := 0 to |userIDs|
        invariant Valid() && known == old(known) && Possible(policy, old(View()), Offlines(userIDs[..i], platformID))
        invariant View() == Run(policy, old(View()), Offlines(userIDs[..i], platformID))
      {
        RunAppend(policy, old(View()), Offlines(userIDs[..i], platformID), Offline(userIDs[i], platformID));
        assert Offlines(userIDs[..i + 1], platformID) ==
               Offlines(userIDs[..i], platformID) + [Offline(userIDs[i], platformID)];
        KickPlatform(userIDs[i], platformID);
      }
      assert userIDs[..|userIDs|] == userIDs;
    }

    /** Another node reports a login: the connections it may kick are read now and
        kicked when the event loop gets to it. */
    method MultiTerminalLoginCheck(user: string, platformID: int, token: string)
      requires Valid()
      modifies this
      ensures Valid() && View() == Step(policy, old(View()), Login(user, platformID, token))
    {
      StepKeepsInv(policy, View(), Login(user, platformID, token));
      var olds, userOK, clientOK := clients.Get(user, platformID);
      if userOK {
        kickHandlerChan := kickHandlerChan + [KickInfo(clientOK, olds, user, platformID, token)];
      }
    }
  }
}
