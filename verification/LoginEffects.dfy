/** What a login does to connections and tokens, told by users, platform numbers and
    the numbers of the policies alone. */
module LoginEffects {
  import opened Messages
  import opened Gateway
  import opened GatewayRuns
  import opened Sequences

  // ------------------------------------------------------------- platforms

  /** Length and first letter tell the platform names apart. */
  lemma NameTells(p: int)
    ensures !(1 <= p <= 10) ==> PlatformName(p) == ""
    ensures 1 <= p <= 10 ==>
              var n := PlatformName(p);
              && |n| == [3, 7, 7, 3, 3, 7, 5, 4, 4, 5][p - 1]
              && n[0] == ['I', 'A', 'W', 'O', 'W', 'M', 'L', 'A', 'I', 'A'][p - 1]
  {
  }

  /** Tokens are stored by user and platform: two terminals have one entry only if
      they are one terminal, or both platforms are unknown. */
  lemma KeyTells(u: string, p: int, v: string, q: int)
    ensures KeyOf(u, p) == KeyOf(v, q) <==> u == v && (p == q || (!(1 <= p <= 10) && !(1 <= q <= 10)))
  {
    NameTells(p);
    NameTells(q);
  }

  /** The policies that kick, and the platforms the second of them spares: Windows,
      OSX and Linux. */
  lemma KicksOn(policy: int, p: int)
    ensures Kicks(policy, p) <==> policy == 1 || (policy == 5 && p != 3 && p != 4 && p != 7)
  {
  }

  // ---------------------------------------------------------------- tokens

  /** What is stored about a token of a user and a platform. */
  function Status(tokens: Tokens, user: string, p: int, token: string): Option<int> {
    var key := KeyOf(user, p);
    if key in tokens && token in tokens[key] then Some(tokens[key][token]) else None
  }

  lemma MarkedStatus(tokens: Tokens, user: string, p: int, new': string, v: string, q: int, token: string)
    requires 1 <= q <= 10
    ensures Status(KickTokens(tokens, KeyOf(user, p), new'), v, q, token) ==
            if v == user && q == p && token != new' && Status(tokens, v, q, token).Some? then Some(2)
            else Status(tokens, v, q, token)
  {
    KeyTells(user, p, v, q);
  }

  /** A registration has the user's other tokens of the same platform marked as kicked
      exactly if the policy kicks there, the user has a connection there, and the
      token cache answers; no other token of any user and platform is touched. */
  lemma RegistrationTokens(policy: int, h: Hub, cached: bool, v: string, q: int, token: string)
    requires h.registerQ != [] && 1 <= q <= 10
    ensures var (c, after) := (h.registerQ[0], DoRegister(policy, h, cached).tokens);
            Status(after, v, q, token) ==
            if && cached
               && (policy == 1 || (policy == 5 && c.platformID != 3 && c.platformID != 4 && c.platformID != 7))
               && (exists d | d in UserConns(h.users, c.userID) :: d.platformID == c.platformID)
               && v == c.userID && q == c.platformID && token != c.token && Status(h.tokens, v, q, token).Some?
            then Some(2)
            else Status(h.tokens, v, q, token)
  {
    var c := h.registerQ[0];
    KicksOn(policy, c.platformID);
    MarkedStatus(h.tokens, c.userID, c.platformID, c.token, v, q, token);
    AnyOnPlatform(UserConns(h.users, c.userID), c.platformID);
    RegisteredTokens(policy, h, cached);
  }

  lemma AnyOnPlatform(cs: seq<Client>, p: int)
    ensures OnPlatform(cs, p) != [] <==> exists d | d in cs :: d.platformID == p
  {
    FilterExact(OnTerminal(p), cs);
    if OnPlatform(cs, p) != [] {
      assert OnPlatform(cs, p)[0] in cs;
    }
  }

  lemma RegisteredTokens(policy: int, h: Hub, cached: bool)
    requires h.registerQ != []
    ensures var c := h.registerQ[0];
            DoRegister(policy, h, cached).tokens ==
            if cached && Kicks(policy, c.platformID) && OnPlatform(UserConns(h.users, c.userID), c.platformID) != []
            then KickTokens(h.tokens, KeyOf(c.userID, c.platformID), c.token) else h.tokens
  {
  }

  /** The same for a login reported by another node. */
  lemma ReportedTokens(policy: int, h: Hub, cached: bool, v: string, q: int, token: string)
    requires h.kickQ != [] && 1 <= q <= 10
    ensures var (k, after) := (h.kickQ[0], DoKick(policy, h, cached).tokens);
            Status(after, v, q, token) ==
            if && cached
               && (policy == 1 || (policy == 5 && k.platformID != 3 && k.platformID != 4 && k.platformID != 7))
               && k.clientOK
               && v == k.user && q == k.platformID && token != k.token && Status(h.tokens, v, q, token).Some?
            then Some(2)
            else Status(h.tokens, v, q, token)
  {
    KicksOn(policy, h.kickQ[0].platformID);
    MarkedStatus(h.tokens, h.kickQ[0].user, h.kickQ[0].platformID, h.kickQ[0].token, v, q, token);
  }

  /** Issuing a token: it is stored as valid, and of the others of its user and
      platform those are forgotten that are not valid or have expired. */
  lemma IssueTokens(h: Hub, user: string, p: int, new': string, expired: set<string>, v: string, q: int, token: string)
    requires 1 <= q <= 10
    ensures Status(DoIssue(h, KeyOf(user, p), new', expired).tokens, v, q, token) ==
            var before := Status(h.tokens, v, q, token);
            if v != user || q != p then before
            else if token == new' then Some(0)
            else if before == Some(0) && token !in expired then Some(0)
            else None
  {
    KeyTells(user, p, v, q);
  }

  /** No other step touches a token. */
  lemma TokensKept(policy: int, h: Hub, e: Event)
    requires Enabled(h, e) && !e.Register? && !e.Kick? && !e.Issue?
    ensures Step(policy, h, e).tokens == h.tokens
  {
    if e.Offline? {
      KickConnsTokens(h, OnPlatform(UserConns(h.users, e.user), e.platformID));
    }
  }

  // ------------------------------------------------------------ connections

  /** A registration leaves a user's connections as they were, but for the older ones
      on the new one's platform where the policy kicks. */
  lemma RegistrationConns(policy: int, h: Hub, cached: bool, u: string, d: Client)
    requires Inv(policy, h) && h.registerQ != []
    ensures var (c, users) := (h.registerQ[0], DoRegister(policy, h, cached).users);
            d in UserConns(users, u) <==>
            || (u == c.userID && d == c)
            || (d in UserConns(h.users, u) &&
                !(&& (policy == 1 || (policy == 5 && c.platformID != 3 && c.platformID != 4 && c.platformID != 7))
                  && u == c.userID && d.platformID == c.platformID))
  {
    var c := h.registerQ[0];
    KicksOn(policy, c.platformID);
    var (before, after) := (UserConns(h.users, u), UserConns(DoRegister(policy, h, cached).users, u));
    RegistrationExact(policy, h, cached, u, d.platformID);
    TerminalHas(before, d);
    TerminalHas(after, d);
  }

  lemma TerminalHas(cs: seq<Client>, d: Client)
    ensures d in cs <==> d in OnPlatform(cs, d.platformID)
  {
    FilterExact(OnTerminal(d.platformID), cs);
  }

  /** The new connection comes last. */
  lemma NewestLast(policy: int, h: Hub, cached: bool)
    requires h.registerQ != []
    ensures var (c, users) := (h.registerQ[0], DoRegister(policy, h, cached).users);
            UserConns(users, c.userID) != [] && UserConns(users, c.userID)[|UserConns(users, c.userID)| - 1] == c
  {
  }

  /** A reported login takes away exactly the connections listed in it, where the
      policy kicks. */
  lemma ReportedConns(policy: int, h: Hub, cached: bool, u: string, d: Client)
    requires Inv(policy, h) && h.kickQ != []
    ensures var (k, users) := (h.kickQ[0], DoKick(policy, h, cached).users);
            d in UserConns(users, u) <==>
            && d in UserConns(h.users, u)
            && !(&& (policy == 1 || (policy == 5 && k.platformID != 3 && k.platformID != 4 && k.platformID != 7))
                 && k.clientOK && u == k.user && d in k.oldClients)
  {
    KicksOn(policy, h.kickQ[0].platformID);
    ReportedLoginExact(policy, h, cached, u, d);
  }

  /** What is queued for a login reported by another node: its own user, platform and
      token, and exactly the connections there are now on that platform. */
  lemma ReportQueued(h: Hub, user: string, p: int, token: string, d: Client)
    ensures var h' := DoLogin(h, user, p, token);
            && h' == h.(kickQ := h'.kickQ)
            && (user !in h.users ==> h'.kickQ == h.kickQ)
            && (user in h.users ==>
                  && |h'.kickQ| == |h.kickQ| + 1 && h'.kickQ[..|h.kickQ|] == h.kickQ
                  && var k := h'.kickQ[|h.kickQ|];
                  && k.user == user && k.platformID == p && k.token == token
                  && (d in k.oldClients <==> d in h.users[user] && d.platformID == p)
                  && (k.clientOK <==> exists c | c in h.users[user] :: c.platformID == p))
  {
    if user in h.users {
      FilterExact(OnTerminal(p), h.users[user]);
      AnyOnPlatform(h.users[user], p);
    }
  }

  /** In every reachable state: under policy 1 a user has at most one connection on a
      platform, under policy 5 on every platform but Windows, OSX and Linux. */
  lemma OneOnPlatform(policy: int, h0: Hub, es: seq<Event>, u: string, i: nat, j: nat)
    requires Start(h0) && Possible(policy, h0, es)
    requires i < j < |UserConns(Run(policy, h0, es).users, u)|
    ensures var cs := UserConns(Run(policy, h0, es).users, u);
            && cs[i] != cs[j] && cs[i].userID == cs[j].userID == u
            && (policy == 1 ==> cs[i].platformID != cs[j].platformID)
            && (policy == 5 && cs[i].platformID != 3 && cs[i].platformID != 4 && cs[i].platformID != 7 ==>
                  cs[i].platformID != cs[j].platformID)
  {
    SingleLoginAlways(policy, h0, es, u);
    KicksOn(policy, UserConns(Run(policy, h0, es).users, u)[i].platformID);
  }
}
