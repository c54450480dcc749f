/** The connection registry of a gateway node: which connections each user has,
    how a login kicks older connections under the multi-login policy, and the
    counters and token states that go with it. */
module Gateway {
  import opened Sequences

  // Multi-login policies that kick; under every other policy nobody is kicked.
  const ALL_LOGIN_BUT_SAME_TERM_KICK := 1
  const PC_AND_OTHER := 5

  // Token states.
  const NORMAL_TOKEN := 0
  const KICKED_TOKEN := 2

  function PlatformName(id: int): string {
    match id
    case 1 => "IOS"
    case 2 => "Android"
    case 3 => "Windows"
    case 4 => "OSX"
    case 5 => "Web"
    case 6 => "MiniWeb"
    case 7 => "Linux"
    case 8 => "APad"
    case 9 => "IPad"
    case 10 => "Admin"
    case _ => ""
  }

  function PlatformClass(id: int): string {
    match id
    case 1 => "Mobile"
    case 2 => "Mobile"
    case 3 => "PC"
    case 4 => "PC"
    case 5 => "Web"
    case 6 => "Web"
    case 7 => "PC"
    case _ => ""
  }

  /** Does a login on this platform kick older logins on the same platform? */
  predicate Kicks(policy: int, platformID: int) {
    || policy == ALL_LOGIN_BUT_SAME_TERM_KICK
    || (policy == PC_AND_OTHER && PlatformClass(platformID) != "PC")
  }

  /** One connection. */
  class Client {
    const userID: string
    const platformID: int
    const remoteAddr: string
    const token: string
    var closed: bool

    constructor (userID: string, platformID: int, remoteAddr: string, token: string)
      ensures this.userID == userID && this.platformID == platformID
      ensures this.remoteAddr == remoteAddr && this.token == token && !closed
    {
      this.userID, this.platformID, this.remoteAddr, this.token := userID, platformID, remoteAddr, token;
      closed := false;
    }
  }

  // --------------------------------------------------------- connections

  /** The two tests connections are selected by. */
  datatype Test = OnTerminal(platformID: int) | NotAt(addrs: set<string>)

  predicate Passes(f: Test, c: Client) {
    match f
    case OnTerminal(p) => c.platformID == p
    case NotAt(addrs) => c.remoteAddr !in addrs
  }

  function Filter(f: Test, cs: seq<Client>): seq<Client> {
    if cs == [] then []
    else
      var (rest, last) := (Filter(f, cs[..|cs| - 1]), cs[|cs| - 1]);
      if Passes(f, last) then rest + [last] else rest
  }

  lemma {:induction false} FilterExact(f: Test, cs: seq<Client>)
    ensures forall c | c in Filter(f, cs) :: c in cs && Passes(f, c)
    ensures forall c | c in cs && Passes(f, c) :: c in Filter(f, cs)
    ensures NoDup(cs) ==> NoDup(Filter(f, cs))
  {
    if cs != [] {
      FilterExact(f, cs[..|cs| - 1]);
    }
  }

  lemma {:induction false} FilterCommute(f: Test, g: Test, cs: seq<Client>)
    requires forall c | c in cs && Passes(g, c) :: Passes(f, c)
    ensures Filter(g, Filter(f, cs)) == Filter(g, cs)
  {
    if cs != [] {
      var n := |cs| - 1;
      FilterCommute(f, g, cs[..n]);
      if Passes(f, cs[n]) {
        assert (Filter(f, cs[..n]) + [cs[n]])[..|Filter(f, cs[..n])|] == Filter(f, cs[..n]);
      }
    }
  }

  function OnPlatform(cs: seq<Client>, platformID: int): seq<Client> {
    Filter(OnTerminal(platformID), cs)
  }

  function Without(cs: seq<Client>, addrs: set<string>): seq<Client> {
    Filter(NotAt(addrs), cs)
  }

  function Addrs(cs: seq<Client>): set<string> {
    set c | c in cs :: c.remoteAddr
  }

  type Users = map<string, seq<Client>>

  function UserConns(users: Users, user: string): seq<Client> {
    if user in users then users[user] else []
  }

  function Added(users: Users, user: string, c: Client): Users {
    users[user := UserConns(users, user) + [c]]
  }

  /** The user's connections at the given addresses are gone; a user left with
      none has no entry. */
  function Removed(users: Users, user: string, addrs: set<string>): Users {
    if user !in users then users
    else
      var left := Without(users[user], addrs);
      if left == [] then users - {user} else users[user := left]
  }

  predicate InMap(users: Users, c: Client) {
    c.userID in users && c in users[c.userID]
  }

  lemma RemovedExact(users: Users, user: string, addrs: set<string>, u: string)
    ensures UserConns(Removed(users, user, addrs), u) ==
            if u == user then Without(UserConns(users, u), addrs) else UserConns(users, u)
    ensures Removed(users, user, addrs).Keys <= users.Keys
    ensures u != user ==> (u in Removed(users, user, addrs) <==> u in users)
  {
  }

  // ---------------------------------------------------------------- state

  /** A login seen on another node: the connections it may kick, as they were when
      the message came in. */
  datatype KickInfo = KickInfo(clientOK: bool, oldClients: seq<Client>, user: string, platformID: int, token: string)

  type TokenKey = (string, string)
  type Tokens = map<TokenKey, map<string, int>>

  /** The gateway's state. The last five fields are history: every connection made,
      those whose registration and whose unregistration were processed, the tokens
      ever issued, and how often a kick outside a registration emptied a user. */
  datatype Hub = Hub(users: Users, userNum: int, connNum: int,
                     registerQ: seq<Client>, unregisterQ: seq<Client>, kickQ: seq<KickInfo>,
                     tokens: Tokens, closed: set<Client>,
                     known: set<Client>, registered: set<Client>, done: set<Client>,
                     issued: set<string>, leaks: nat)

  function KeyOf(user: string, platformID: int): TokenKey {
    (user, PlatformName(platformID))
  }

  /** Client.close: the first close queues the unregistration. */
  function Close(h: Hub, c: Client): Hub {
    if c in h.closed then h else h.(closed := h.closed + {c}, unregisterQ := h.unregisterQ + [c])
  }

  function CloseAll(h: Hub, cs: seq<Client>): (r: Hub)
    ensures r == h.(closed := r.closed, unregisterQ := r.unregisterQ)
  {
    if cs == [] then h else Close(CloseAll(h, cs[..|cs| - 1]), cs[|cs| - 1])
  }

  /** Every token of the terminal but the new one is marked as kicked. */
  function KickTokens(tokens: Tokens, key: TokenKey, token: string): Tokens {
    if key !in tokens then tokens
    else tokens[key := map t | t in tokens[key] :: if t == token then tokens[key][t] else KICKED_TOKEN]
  }

  /** multiTerminalLoginChecker; `cached` tells whether the token cache answered. */
  function CheckLogin(policy: int, h: Hub, info: KickInfo, cached: bool): (r: Hub)
    ensures r == h.(users := r.users, tokens := r.tokens, closed := r.closed, unregisterQ := r.unregisterQ)
  {
    if !Kicks(policy, info.platformID) || !info.clientOK then h
    else
      var h1 := CloseAll(h.(users := Removed(h.users, info.user, Addrs(info.oldClients))), info.oldClients);
      if cached then h1.(tokens := KickTokens(h1.tokens, KeyOf(info.user, info.platformID), info.token)) else h1
  }

  /** The login check of a connection that registers. */
  function InfoOf(users: Users, c: Client): KickInfo {
    var olds := OnPlatform(UserConns(users, c.userID), c.platformID);
    KickInfo(olds != [], olds, c.userID, c.platformID, c.token)
  }

  function Emptied(before: Users, after: Users, user: string): nat {
    if user in before && user !in after then 1 else 0
  }

  /** KickUserConn. */
  function KickConn(h: Hub, c: Client): Hub {
    var users := Removed(h.users, c.userID, {c.remoteAddr});
    Close(h.(users := users, leaks := h.leaks + Emptied(h.users, users, c.userID)), c)
  }

  function KickConns(h: Hub, cs: seq<Client>): Hub {
    if cs == [] then h else KickConn(KickConns(h, cs[..|cs| - 1]), cs[|cs| - 1])
  }

  // --------------------------------------------------------------- events

  /** Connect: a connection is accepted and queued for registration. Drop: its
      reader ends. Register, Unregister, Kick: the event loop takes from one of its
      queues. Offline: a user is kicked from one platform by request. Login:
      another node reports a login. Issue: the auth service issues a token and
      forgets the ones not normal and those expired. */
  datatype Event =
    | Connect(c: Client) | Drop(c: Client)
    | Register(cached: bool) | Unregister | Kick(cached: bool)
    | Offline(user: string, platformID: int)
    | Login(user: string, platformID: int, token: string)
    | Issue(user: string, platformID: int, token: string, expired: set<string>)

  /** Connections whose address may still be looked up: not yet unregistered, or
      held by a queued login report. */
  function Live(h: Hub): set<Client> {
    (h.known - h.done) + set i, c | 0 <= i < |h.kickQ| && c in h.kickQ[i].oldClients :: c
  }

  predicate Enabled(h: Hub, e: Event) {
    match e
    case Connect(c) => c !in h.known && forall d | d in Live(h) :: d.remoteAddr != c.remoteAddr
    case Drop(c) => c in h.known
    case Register(_) => h.registerQ != []
    case Unregister => h.unregisterQ != [] && h.unregisterQ[0] in h.registered
    case Kick(_) => h.kickQ != []
    case Offline(_, _) => true
    case Login(_, _, _) => true
    case Issue(_, _, token, _) => token !in h.issued
  }

  function AddConn(h: Hub, c: Client): Hub
    requires h.registerQ != []
  {
    h.(users := Added(h.users, c.userID, c), connNum := h.connNum + 1,
       registerQ := h.registerQ[1..], registered := h.registered + {c})
  }

  function DoRegister(policy: int, h: Hub, cached: bool): Hub
    requires h.registerQ != []
  {
    var c := h.registerQ[0];
    if c.userID in h.users then AddConn(CheckLogin(policy, h, InfoOf(h.users, c), cached), c)
    else AddConn(h, c).(userNum := h.userNum + 1)
  }

  function DoUnregister(h: Hub): Hub
    requires h.unregisterQ != []
  {
    var c := h.unregisterQ[0];
    var users := Removed(h.users, c.userID, {c.remoteAddr});
    h.(users := users, userNum := h.userNum - Emptied(h.users, users, c.userID), connNum := h.connNum - 1,
       unregisterQ := h.unregisterQ[1..], done := h.done + {c})
  }

  function DoKick(policy: int, h: Hub, cached: bool): Hub
    requires h.kickQ != []
  {
    var h1 := CheckLogin(policy, h, h.kickQ[0], cached);
    h1.(kickQ := h.kickQ[1..], leaks := h.leaks + Emptied(h.users, h1.users, h.kickQ[0].user))
  }

  function DoLogin(h: Hub, user: string, platformID: int, token: string): Hub {
    if user !in h.users then h
    else
      var olds := OnPlatform(h.users[user], platformID);
      h.(kickQ := h.kickQ + [KickInfo(olds != [], olds, user, platformID, token)])
  }

  function DoIssue(h: Hub, key: TokenKey, token: string, expired: set<string>): Hub {
    var kept := if key !in h.tokens then map[]
    else map t | t in h.tokens[key] && h.tokens[key][t] == NORMAL_TOKEN && t !in expired :: h.tokens[key][t];
    h.(tokens := h.tokens[key := kept[token := NORMAL_TOKEN]], issued := h.issued + {token})
  }

  function Step(policy: int, h: Hub, e: Event): Hub
    requires Enabled(h, e)
  {
    match e
    case Connect(c) => h.(known := h.known + {c}, registerQ := h.registerQ + [c])
    case Drop(c) => Close(h, c)
    case Register(cached) => DoRegister(policy, h, cached)
    case Unregister => DoUnregister(h)
    case Kick(cached) => DoKick(policy, h, cached)
    case Offline(user, platformID) => KickConns(h, OnPlatform(UserConns(h.users, user), platformID))
    case Login(user, platformID, token) => DoLogin(h, user, platformID, token)
    case Issue(user, platformID, token, expired) => DoIssue(h, KeyOf(user, platformID), token, expired)
  }

  // ----------------------------------------------------------- invariants

  ghost predicate UsersOK(h: Hub) {
    forall u | u in h.users ::
      h.users[u] != [] && NoDup(h.users[u])
      && forall c | c in h.users[u] :: c.userID == u && c in h.registered && c !in h.done
  }

  ghost predicate QueuesOK(h: Hub) {
    && NoDup(h.registerQ) && (forall c | c in h.registerQ :: c in h.known && c !in h.registered)
    && NoDup(h.unregisterQ) && (forall c | c in h.unregisterQ :: c in h.closed && c !in h.done)
    && h.done <= h.registered <= h.known && h.done <= h.closed <= h.known
    && (forall c | c in h.closed :: c in h.done || c in h.unregisterQ)
    && (forall i, c | 0 <= i < |h.kickQ| && c in h.kickQ[i].oldClients ::
          c in h.registered && c.userID == h.kickQ[i].user)
  }

  /** A connection leaves the map only when its unregistration is due; `leaving`
      are those being kicked right now. */
  ghost predicate PresentOK(h: Hub, leaving: set<Client>) {
    forall c | c in h.registered && c !in h.done :: InMap(h.users, c) || c in h.closed || c in leaving
  }

  ghost predicate AddrsOK(h: Hub) {
    forall c, d | c in Live(h) && d in Live(h) && c.remoteAddr == d.remoteAddr :: c == d
  }

  ghost predicate SingleLogin(policy: int, users: Users) {
    forall u | u in users :: forall c, d | c in users[u] && d in users[u] ::
      c.platformID == d.platformID && Kicks(policy, c.platformID) ==> c == d
  }

  /** Everything but the count of users, in the middle of a kick. */
  ghost predicate ConnsOK(policy: int, h: Hub, leaving: set<Client>) {
    && UsersOK(h) && QueuesOK(h) && PresentOK(h, leaving) && AddrsOK(h) && SingleLogin(policy, h.users)
    && h.connNum == |h.registered| - |h.done|
  }

  ghost predicate Inv(policy: int, h: Hub) {
    ConnsOK(policy, h, {}) && h.userNum == |h.users.Keys| + h.leaks
  }

  // ---------------------------------------------------------- each change

  lemma CloseKeeps(policy: int, h: Hub, c: Client, leaving: set<Client>)
    requires ConnsOK(policy, h, leaving) && c in h.known
    ensures ConnsOK(policy, Close(h, c), leaving - {c})
  {
  }

  lemma {:induction false} CloseAllKeeps(policy: int, h: Hub, cs: seq<Client>)
    requires ConnsOK(policy, h, SetOf(cs)) && forall c | c in cs :: c in h.known
    ensures ConnsOK(policy, CloseAll(h, cs), {})
  {
    CloseSome(policy, h, cs, |cs|);
    assert cs[..|cs|] == cs;
    assert SetOf(cs) - SetOf(cs) == {};
  }

  lemma {:induction false} CloseSome(policy: int, h: Hub, cs: seq<Client>, n: nat)
    requires ConnsOK(policy, h, SetOf(cs)) && n <= |cs| && forall c | c in cs :: c in h.known
    ensures ConnsOK(policy, CloseAll(h, cs[..n]), SetOf(cs) - SetOf(cs[..n]))
  {
    if n == 0 {
      assert SetOf(cs) - SetOf(cs[..0]) == SetOf(cs);
    } else {
      CloseSome(policy, h, cs, n - 1);
      assert cs[..n][..n - 1] == cs[..n - 1];
      var all := SetOf(cs);
      CloseKeeps(policy, CloseAll(h, cs[..n - 1]), cs[n - 1], all - SetOf(cs[..n - 1]));
      assert SetOf(cs[..n]) == SetOf(cs[..n - 1]) + {cs[n - 1]};
      assert all - SetOf(cs[..n]) == (all - SetOf(cs[..n - 1])) - {cs[n - 1]};
    }
  }

  /** Connections to be kicked: registered ones of one user, whose addresses no
      other connection has. */
  ghost predicate Kickable(h: Hub, user: string, olds: seq<Client>) {
    && (forall c | c in olds :: c in h.registered && c.userID == user)
    && forall c, d | c in olds && d in h.known && d !in h.done && c.remoteAddr == d.remoteAddr :: c == d
  }

  lemma RemoveKeeps(policy: int, h: Hub, user: string, olds: seq<Client>)
    requires ConnsOK(policy, h, {}) && Kickable(h, user, olds)
    ensures ConnsOK(policy, h.(users := Removed(h.users, user, Addrs(olds))), SetOf(olds))
  {
    var addrs := Addrs(olds);
    var h' := h.(users := Removed(h.users, user, addrs));
    FilterExact(NotAt(addrs), UserConns(h.users, user));
    forall c | c in UserConns(h.users, user) && c.remoteAddr in addrs ensures c in olds {
      var d :| d in olds && d.remoteAddr == c.remoteAddr;
    }
    assert Live(h') == Live(h);
  }

  lemma RemovedKeys(users: Users, user: string, addrs: set<string>)
    ensures |Removed(users, user, addrs).Keys| == |users.Keys| - Emptied(users, Removed(users, user, addrs), user)
  {
  }

  lemma RemovedOne(users: Users, c: Client)
    ensures !InMap(Removed(users, c.userID, {c.remoteAddr}), c)
  {
    FilterExact(NotAt({c.remoteAddr}), UserConns(users, c.userID));
  }

  lemma DueIsKickable(h: Hub, c: Client)
    requires AddrsOK(h) && c in h.registered && c !in h.done && h.registered <= h.known
    ensures Kickable(h, c.userID, [c])
  {
  }

  /** Taking one connection out of the map: nothing else has its address. */
  lemma RemoveOneKeeps(policy: int, h: Hub, c: Client)
    requires ConnsOK(policy, h, {}) && c in h.registered && c !in h.done
    ensures var users := Removed(h.users, c.userID, {c.remoteAddr});
            && ConnsOK(policy, h.(users := users), {c})
            && !InMap(users, c)
            && |users.Keys| == |h.users.Keys| - Emptied(h.users, users, c.userID)
  {
    DueIsKickable(h, c);
    assert Addrs([c]) == {c.remoteAddr} && SetOf([c]) == {c};
    RemoveKeeps(policy, h, c.userID, [c]);
    RemovedOne(h.users, c);
    RemovedKeys(h.users, c.userID, {c.remoteAddr});
  }

  lemma CheckLoginKeeps(policy: int, h: Hub, info: KickInfo, cached: bool)
    requires ConnsOK(policy, h, {}) && Kickable(h, info.user, info.oldClients)
    ensures var h' := CheckLogin(policy, h, info, cached);
            && ConnsOK(policy, h', {})
            && h' == h.(users := h'.users, tokens := h'.tokens, closed := h'.closed, unregisterQ := h'.unregisterQ)
            && h'.users == (if Kicks(policy, info.platformID) && info.clientOK
                            then Removed(h.users, info.user, Addrs(info.oldClients)) else h.users)
  {
    if Kicks(policy, info.platformID) && info.clientOK {
      var h1 := h.(users := Removed(h.users, info.user, Addrs(info.oldClients)));
      RemoveKeeps(policy, h, info.user, info.oldClients);
      CloseAllKeeps(policy, h1, info.oldClients);
      var h2 := CloseAll(h1, info.oldClients);
      var h3 := CheckLogin(policy, h, info, cached);
      assert h3 == h2.(tokens := h3.tokens);
      assert Live(h3) == Live(h2);
    }
  }

  // ----------------------------------------------------------- each event

  lemma InMapIsLive(policy: int, h: Hub, user: string, p: int)
    requires ConnsOK(policy, h, {})
    ensures Kickable(h, user, OnPlatform(UserConns(h.users, user), p))
  {
    FilterExact(OnTerminal(p), UserConns(h.users, user));
    assert forall c | c in OnPlatform(UserConns(h.users, user), p) :: c in UserConns(h.users, user);
    assert forall c | c in UserConns(h.users, user) :: c in h.registered && c.userID == user;
  }

  /** The connections left to a user, and those of the terminal that logs in. */
  lemma KickedTerminal(users: Users, user: string, p: int)
    ensures var olds := OnPlatform(UserConns(users, user), p);
            forall c | c in UserConns(Removed(users, user, Addrs(olds)), user) ::
              c in UserConns(users, user) && c.platformID != p
  {
    var olds := OnPlatform(UserConns(users, user), p);
    FilterExact(OnTerminal(p), UserConns(users, user));
    FilterExact(NotAt(Addrs(olds)), UserConns(users, user));
    RemovedExact(users, user, Addrs(olds), user);
  }

  lemma AddConnUsers(policy: int, h: Hub, c: Client)
    requires UsersOK(h) && QueuesOK(h) && SingleLogin(policy, h.users) && h.registerQ != [] && c == h.registerQ[0]
    requires Kicks(policy, c.platformID) ==>
               forall d | d in UserConns(h.users, c.userID) :: d.platformID != c.platformID
    ensures UsersOK(AddConn(h, c)) && SingleLogin(policy, AddConn(h, c).users)
    ensures c !in h.registered
  {
  }

  lemma AddConnQueues(h: Hub, c: Client)
    requires QueuesOK(h) && h.registerQ != [] && c == h.registerQ[0]
    ensures QueuesOK(AddConn(h, c))
  {
  }

  lemma AddConnPresent(h: Hub, c: Client)
    requires PresentOK(h, {}) && h.registerQ != []
    ensures PresentOK(AddConn(h, c), {})
  {
  }

  /** Putting a registered connection into the map. */
  lemma AddConnKeeps(policy: int, h: Hub, c: Client)
    requires ConnsOK(policy, h, {}) && h.registerQ != [] && c == h.registerQ[0]
    requires Kicks(policy, c.platformID) ==>
               forall d | d in UserConns(h.users, c.userID) :: d.platformID != c.platformID
    ensures ConnsOK(policy, AddConn(h, c), {})
  {
    AddConnUsers(policy, h, c);
    AddConnQueues(h, c);
    AddConnPresent(h, c);
    assert Live(AddConn(h, c)) == Live(h);
    assert AddrsOK(AddConn(h, c));
  }

  /** The login check of a registration, on a user who has connections. */
  lemma LoginConns(policy: int, h: Hub, cached: bool)
    requires Inv(policy, h) && h.registerQ != []
    ensures var c := h.registerQ[0];
            var h1 := CheckLogin(policy, h, InfoOf(h.users, c), cached);
            && ConnsOK(policy, h1, {})
            && (Kicks(policy, c.platformID) ==>
                  forall d | d in UserConns(h1.users, c.userID) :: d.platformID != c.platformID)
            && h1.users.Keys <= h.users.Keys <= h1.users.Keys + {c.userID}
  {
    var c := h.registerQ[0];
    InMapIsLive(policy, h, c.userID, c.platformID);
    CheckLoginKeeps(policy, h, InfoOf(h.users, c), cached);
    NoneOnTerminal(policy, h.users, c);
  }

  lemma RegisterKnownUser(policy: int, h: Hub, cached: bool)
    requires Inv(policy, h) && h.registerQ != [] && h.registerQ[0].userID in h.users
    ensures Inv(policy, DoRegister(policy, h, cached))
  {
    var c := h.registerQ[0];
    LoginConns(policy, h, cached);
    var h1 := CheckLogin(policy, h, InfoOf(h.users, c), cached);
    AddConnKeeps(policy, h1, c);
    assert AddConn(h1, c).users.Keys == h.users.Keys;
    assert DoRegister(policy, h, cached) == AddConn(h1, c);
  }

  lemma AddedKeys(users: Users, user: string, c: Client)
    ensures Added(users, user, c).Keys == users.Keys + {user}
    ensures user !in users ==> |Added(users, user, c).Keys| == |users.Keys| + 1
  {
  }

  lemma RegisterNewUser(policy: int, h: Hub, cached: bool)
    requires Inv(policy, h) && h.registerQ != [] && h.registerQ[0].userID !in h.users
    ensures Inv(policy, DoRegister(policy, h, cached))
  {
    var c := h.registerQ[0];
    var h1 := AddConn(h, c);
    assert ConnsOK(policy, h1, {}) by {
      AddConnKeeps(policy, h, c);
    }
    AddedKeys(h.users, c.userID, c);
    var h2 := h1.(userNum := h.userNum + 1);
    assert ConnsOK(policy, h2, {}) by {
      SameConns(policy, h1, h2);
    }
    assert DoRegister(policy, h, cached) == h2;
    assert h2.userNum == |h2.users.Keys| + h2.leaks;
  }

  /** After the login check of c, c's terminal is free if the policy kicks it. */
  lemma NoneOnTerminal(policy: int, users: Users, c: Client)
    ensures var info := InfoOf(users, c);
            var left := if Kicks(policy, c.platformID) && info.clientOK
                        then Removed(users, c.userID, Addrs(info.oldClients)) else users;
            Kicks(policy, c.platformID) ==>
              forall d | d in UserConns(left, c.userID) :: d.platformID != c.platformID
  {
    KickedTerminal(users, c.userID, c.platformID);
    FilterExact(OnTerminal(c.platformID), UserConns(users, c.userID));
  }

  lemma SameConns(policy: int, h: Hub, h': Hub)
    requires ConnsOK(policy, h, {})
    requires h' == h.(userNum := h'.userNum, leaks := h'.leaks, tokens := h'.tokens, issued := h'.issued)
    ensures ConnsOK(policy, h', {})
  {
  }

  lemma ConnectAddrs(h: Hub, h': Hub, c: Client)
    requires AddrsOK(h) && Enabled(h, Connect(c))
    requires h'.known == h.known + {c} && h'.done == h.done && h'.kickQ == h.kickQ
    ensures AddrsOK(h')
  {
  }

  lemma ConnectQueues(h: Hub, c: Client)
    requires QueuesOK(h) && c !in h.known
    ensures QueuesOK(h.(known := h.known + {c}, registerQ := h.registerQ + [c]))
  {
  }

  lemma ConnectKeeps(policy: int, h: Hub, c: Client)
    requires Inv(policy, h) && Enabled(h, Connect(c))
    ensures Inv(policy, Step(policy, h, Connect(c)))
  {
    ConnectQueues(h, c);
    ConnectAddrs(h, h.(known := h.known + {c}, registerQ := h.registerQ + [c]), c);
  }

  /** The connection at the front of the queue, out of the map, is done with. */
  function Finish(h: Hub): Hub
    requires h.unregisterQ != []
  {
    h.(connNum := h.connNum - 1, unregisterQ := h.unregisterQ[1..], done := h.done + {h.unregisterQ[0]})
  }

  lemma FinishKeeps(policy: int, h: Hub, c: Client)
    requires ConnsOK(policy, h, {c}) && h.unregisterQ != [] && c == h.unregisterQ[0]
    requires c in h.registered && !InMap(h.users, c)
    ensures ConnsOK(policy, Finish(h), {})
  {
  }

  lemma UnregisterKeeps(policy: int, h: Hub)
    requires Inv(policy, h) && Enabled(h, Unregister)
    ensures Inv(policy, DoUnregister(h))
  {
    var c := h.unregisterQ[0];
    assert c in h.unregisterQ;
    RemoveOneKeeps(policy, h, c);
    var h1 := h.(users := Removed(h.users, c.userID, {c.remoteAddr}));
    var (h2, h') := (Finish(h1), DoUnregister(h));
    assert ConnsOK(policy, h2, {}) by {
      FinishKeeps(policy, h1, c);
    }
    assert h' == h2.(userNum := h'.userNum);
    assert ConnsOK(policy, h', {}) by {
      SameConns(policy, h2, h');
    }
  }

  lemma QueuedKickable(h: Hub)
    requires AddrsOK(h) && QueuesOK(h) && h.kickQ != []
    ensures Kickable(h, h.kickQ[0].user, h.kickQ[0].oldClients)
  {
  }

  lemma DequeueKeeps(policy: int, h: Hub, leaks: nat)
    requires ConnsOK(policy, h, {}) && h.kickQ != []
    ensures ConnsOK(policy, h.(kickQ := h.kickQ[1..], leaks := leaks), {})
  {
  }

  lemma KickKeeps(policy: int, h: Hub, cached: bool)
    requires Inv(policy, h) && h.kickQ != []
    ensures Inv(policy, DoKick(policy, h, cached))
  {
    var info := h.kickQ[0];
    QueuedKickable(h);
    CheckLoginKeeps(policy, h, info, cached);
    RemovedKeys(h.users, info.user, Addrs(info.oldClients));
    var (h1, h') := (CheckLogin(policy, h, info, cached), DoKick(policy, h, cached));
    assert ConnsOK(policy, h', {}) by {
      DequeueKeeps(policy, h1, h'.leaks);
    }
  }

  lemma LoginKeeps(policy: int, h: Hub, user: string, p: int, token: string)
    requires Inv(policy, h)
    ensures Inv(policy, DoLogin(h, user, p, token))
  {
    FilterExact(OnTerminal(p), UserConns(h.users, user));
    var h' := DoLogin(h, user, p, token);
    assert Live(h') <= Live(h);
  }

  lemma KickConnKeeps(policy: int, h: Hub, c: Client)
    requires Inv(policy, h) && c in h.registered && c !in h.done
    ensures Inv(policy, KickConn(h, c))
  {
    var h1 := h.(users := Removed(h.users, c.userID, {c.remoteAddr}));
    RemoveOneKeeps(policy, h, c);
    var (h2, h') := (Close(h1, c), KickConn(h, c));
    assert ConnsOK(policy, h2, {}) by {
      CloseKeeps(policy, h1, c, {c});
    }
    assert h' == h2.(leaks := h'.leaks);
    assert ConnsOK(policy, h', {}) by {
      SameConns(policy, h2, h');
    }
  }

  lemma {:induction false} KickConnsKeep(policy: int, h: Hub, cs: seq<Client>)
    requires Inv(policy, h) && forall c | c in cs :: c in h.registered && c !in h.done
    ensures Inv(policy, KickConns(h, cs))
    ensures var h' := KickConns(h, cs);
            h' == h.(users := h'.users, leaks := h'.leaks, closed := h'.closed, unregisterQ := h'.unregisterQ)
  {
    if cs != [] {
      var n := |cs| - 1;
      assert forall c | c in cs[..n] :: c in cs;
      KickConnsKeep(policy, h, cs[..n]);
      KickConnKeeps(policy, KickConns(h, cs[..n]), cs[n]);
    }
  }

  lemma StepKeepsInv(policy: int, h: Hub, e: Event)
    requires Inv(policy, h) && Enabled(h, e)
    ensures Inv(policy, Step(policy, h, e))
  {
    match e
    case Connect(c) => ConnectKeeps(policy, h, c);
    case Drop(c) => CloseKeeps(policy, h, c, {});
    case Register(cached) =>
      if h.registerQ[0].userID in h.users {
        RegisterKnownUser(policy, h, cached);
      } else {
        RegisterNewUser(policy, h, cached);
      }
    case Unregister => UnregisterKeeps(policy, h);
    case Kick(cached) => KickKeeps(policy, h, cached);
    case Offline(user, p) =>
      var olds := OnPlatform(UserConns(h.users, user), p);
      FilterExact(OnTerminal(p), UserConns(h.users, user));
      KickConnsKeep(policy, h, olds);
    case Login(user, p, token) => LoginKeeps(policy, h, user, p, token);
    case Issue(user, p, token, expired) => SameConns(policy, h, Step(policy, h, e));
  }
}
