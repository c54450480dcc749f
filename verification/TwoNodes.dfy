/** Two gateway nodes that share the token store and report their logins to each
    other: what two logins on one terminal leave behind. */
module TwoNodes {
  import opened Gateway
  import opened GatewayRuns
  import opened LoopCapacity
  import opened Sequences

  datatype Node = A | B

  datatype Nodes = Nodes(a: Hub, b: Hub)

  /** An event at one of the nodes. A node reports a login as the event Login at the
      other one. */
  datatype Happening = On(node: Node, event: Event)

  function At(ns: Nodes, n: Node): Hub {
    if n.A? then ns.a else ns.b
  }

  /** Tokens are stored once for both. */
  function Put(ns: Nodes, n: Node, h: Hub): Nodes {
    if n.A? then Nodes(h, ns.b.(tokens := h.tokens, issued := h.issued))
    else Nodes(ns.a.(tokens := h.tokens, issued := h.issued), h)
  }

  predicate Next(policy: int, ns: Nodes, x: Happening, ns': Nodes) {
    Enabled(At(ns, x.node), x.event) && ns' == Put(ns, x.node, Step(policy, At(ns, x.node), x.event))
  }

  ghost predicate BothOK(policy: int, ns: Nodes) {
    Inv(policy, ns.a) && Inv(policy, ns.b) && ns.a.tokens == ns.b.tokens && ns.a.issued == ns.b.issued
  }

  predicate NextAt(policy: int, nss: seq<Nodes>, xs: seq<Happening>, i: nat)
    requires i < |xs| == |nss| - 1
  {
    Next(policy, nss[i], xs[i], nss[i + 1])
  }

  /** The states between the happenings of a run. */
  ghost predicate Trace(policy: int, nss: seq<Nodes>, xs: seq<Happening>) {
    && |nss| == |xs| + 1 && BothOK(policy, nss[0])
    && forall i | 0 <= i < |xs| :: NextAt(policy, nss, xs, i)
  }

  lemma NextKeepsOK(policy: int, ns: Nodes, x: Happening, ns': Nodes)
    requires BothOK(policy, ns) && Next(policy, ns, x, ns')
    ensures BothOK(policy, ns')
  {
    StepKeepsInv(policy, At(ns, x.node), x.event);
    SameConns(policy, ns.a, ns.a.(tokens := ns'.a.tokens, issued := ns'.a.issued));
    SameConns(policy, ns.b, ns.b.(tokens := ns'.b.tokens, issued := ns'.b.issued));
  }

  lemma {:induction false} TraceOK(policy: int, nss: seq<Nodes>, xs: seq<Happening>, k: nat)
    requires Trace(policy, nss, xs) && k < |nss|
    ensures BothOK(policy, nss[k])
  {
    if k > 0 {
      TraceOK(policy, nss, xs, k - 1);
      assert NextAt(policy, nss, xs, k - 1);
      NextKeepsOK(policy, nss[k - 1], xs[k - 1], nss[k]);
    }
  }

  // ----------------------------------------------------- taken by a report

  /** Will this report take that connection? */
  predicate Takes(policy: int, info: KickInfo, c: Client) {
    Kicks(policy, info.platformID) && info.clientOK && info.user == c.userID && c in info.oldClients
  }

  /** A connection that is out of the map, or will be once the reports are through. */
  predicate Doomed(policy: int, h: Hub, c: Client) {
    c in h.registered && (!InMap(h.users, c) || exists i | 0 <= i < |h.kickQ| :: Takes(policy, h.kickQ[i], c))
  }

  /** Only its registration puts a connection into the map. */
  lemma StaysOut(policy: int, h: Hub, e: Event, c: Client)
    requires Inv(policy, h) && Enabled(h, e) && c in h.registered
    ensures InMap(Step(policy, h, e).users, c) ==> InMap(h.users, c)
    ensures c in Step(policy, h, e).registered
  {
    var u := c.userID;
    match e
    case Register(cached) =>
      var x := h.registerQ[0];
      assert x in h.registerQ;
      RegistrationExact(policy, h, cached, u, c.platformID);
      FilterExact(OnTerminal(c.platformID), UserConns(h.users, u));
      FilterExact(OnTerminal(c.platformID), UserConns(DoRegister(policy, h, cached).users, u));
    case Unregister =>
      var x := h.unregisterQ[0];
      RemovedExact(h.users, x.userID, {x.remoteAddr}, u);
      FilterExact(NotAt({x.remoteAddr}), UserConns(h.users, u));
    case Kick(cached) => ReportedLoginExact(policy, h, cached, u, c);
    case Offline(user, p) =>
      OfflineExact(policy, h, user, p, u, c.platformID);
      FilterExact(OnTerminal(c.platformID), UserConns(h.users, u));
      FilterExact(OnTerminal(c.platformID), UserConns(Step(policy, h, e).users, u));
      KickConnsSame(h, OnPlatform(UserConns(h.users, user), p));
    case _ =>
  }

  lemma {:induction false} KickConnsSame(h: Hub, cs: seq<Client>)
    ensures KickConns(h, cs).registered == h.registered && KickConns(h, cs).kickQ == h.kickQ
    ensures KickConns(h, cs).closed == h.closed + SetOf(cs)
  {
    if cs != [] {
      var (init, c) := (cs[..|cs| - 1], cs[|cs| - 1]);
      KickConnsSame(h, init);
      assert cs == init + [c];
      OneMoreOpen(h, init, c);
    }
  }

  lemma QueueAfter(policy: int, h: Hub, e: Event)
    requires Enabled(h, e)
    ensures var h' := Step(policy, h, e);
            if e.Kick? then h'.kickQ == h.kickQ[1..]
            else if e.Login? then h.kickQ <= h'.kickQ
            else h'.kickQ == h.kickQ
  {
    if e.Offline? {
      KickConnsSame(h, OnPlatform(UserConns(h.users, e.user), e.platformID));
    }
  }

  lemma DoomedStays(policy: int, h: Hub, e: Event, c: Client)
    requires Inv(policy, h) && Enabled(h, e) && Doomed(policy, h, c)
    ensures Doomed(policy, Step(policy, h, e), c)
  {
    StaysOut(policy, h, e, c);
    QueueAfter(policy, h, e);
    if InMap(h.users, c) {
      var i :| 0 <= i < |h.kickQ| && Takes(policy, h.kickQ[i], c);
      var h' := Step(policy, h, e);
      if e.Kick? && i == 0 {
        ReportedLoginExact(policy, h, e.cached, c.userID, c);
      } else {
        assert h'.kickQ[if e.Kick? then i - 1 else i] == h.kickQ[i];
      }
    }
  }

  /** A report dooms the connections of its terminal that are in the map. */
  lemma ReportDooms(policy: int, h: Hub, token: string, c: Client)
    requires Inv(policy, h) && c in h.registered && Kicks(policy, c.platformID)
    ensures Doomed(policy, DoLogin(h, c.userID, c.platformID, token), c)
  {
    if InMap(h.users, c) {
      var h' := DoLogin(h, c.userID, c.platformID, token);
      FilterExact(OnTerminal(c.platformID), h.users[c.userID]);
      assert Takes(policy, h'.kickQ[|h.kickQ|], c);
    }
  }

  // --------------------------------------------------- untouched by a report

  /** In the map, open, and in no report that is queued. */
  predicate Safe(policy: int, h: Hub, d: Client) {
    InMap(h.users, d) && d !in h.closed && forall i | 0 <= i < |h.kickQ| :: !Takes(policy, h.kickQ[i], d)
  }

  predicate OnItsTerminal(d: Client, user: string, p: int) {
    d.userID == user && d.platformID == p
  }

  /** Nothing that is meant for d: it is not dropped, and nobody is kicked from, logs
      in on, or reports a login on, its terminal. */
  predicate LeavesAlone(h: Hub, e: Event, d: Client) {
    match e
    case Drop(x) => x != d
    case Register(_) => h.registerQ != [] ==> !OnItsTerminal(d, h.registerQ[0].userID, h.registerQ[0].platformID)
    case Offline(user, p) => !OnItsTerminal(d, user, p)
    case Login(user, p, _) => !OnItsTerminal(d, user, p)
    case _ => true
  }

  lemma SafeInMap(policy: int, h: Hub, e: Event, d: Client)
    requires Inv(policy, h) && Enabled(h, e) && Safe(policy, h, d) && LeavesAlone(h, e, d)
    ensures InMap(Step(policy, h, e).users, d)
  {
    var (u, p) := (d.userID, d.platformID);
    match e
    case Register(cached) =>
      RegistrationExact(policy, h, cached, u, p);
      FilterExact(OnTerminal(p), UserConns(h.users, u));
      FilterExact(OnTerminal(p), UserConns(DoRegister(policy, h, cached).users, u));
    case Unregister =>
      var x := h.unregisterQ[0];
      assert x in h.unregisterQ && x in Live(h) && d in Live(h);
      RemovedExact(h.users, x.userID, {x.remoteAddr}, u);
      FilterExact(NotAt({x.remoteAddr}), UserConns(h.users, u));
    case Kick(cached) => ReportedLoginExact(policy, h, cached, u, d);
    case Offline(user, q) =>
      OfflineExact(policy, h, user, q, u, p);
      FilterExact(OnTerminal(p), UserConns(h.users, u));
      FilterExact(OnTerminal(p), UserConns(Step(policy, h, e).users, u));
    case _ =>
  }

  lemma SafeOpen(policy: int, h: Hub, e: Event, d: Client)
    requires Inv(policy, h) && Enabled(h, e) && Safe(policy, h, d) && LeavesAlone(h, e, d)
    ensures d !in Step(policy, h, e).closed
  {
    match e
    case Register(cached) =>
      var olds := InfoOf(h.users, h.registerQ[0]).oldClients;
      FilterExact(OnTerminal(h.registerQ[0].platformID), UserConns(h.users, h.registerQ[0].userID));
      CloseAllCloses(h.(users := Removed(h.users, h.registerQ[0].userID, Addrs(olds))), olds);
    case Kick(cached) =>
      var info := h.kickQ[0];
      CloseAllCloses(h.(users := Removed(h.users, info.user, Addrs(info.oldClients))), info.oldClients);
      assert d in info.oldClients ==> d.userID == info.user;
    case Offline(user, q) =>
      var olds := OnPlatform(UserConns(h.users, user), q);
      FilterExact(OnTerminal(q), UserConns(h.users, user));
      KickConnsSame(h, olds);
    case _ =>
  }

  lemma SafeStays(policy: int, h: Hub, e: Event, d: Client)
    requires Inv(policy, h) && Enabled(h, e) && Safe(policy, h, d) && LeavesAlone(h, e, d)
    ensures Safe(policy, Step(policy, h, e), d)
  {
    SafeInMap(policy, h, e, d);
    SafeOpen(policy, h, e, d);
    QueueAfter(policy, h, e);
    if e.Login? {
      FilterExact(OnTerminal(e.platformID), UserConns(h.users, e.user));
    }
  }

  lemma SafeAfterRegister(policy: int, h: Hub, cached: bool, d: Client)
    requires Inv(policy, h) && h.registerQ != [] && h.registerQ[0] == d && d !in h.closed
    ensures Safe(policy, DoRegister(policy, h, cached), d)
  {
    assert d in h.registerQ && d !in h.registered;
    RegistrationExact(policy, h, cached, d.userID, d.platformID);
    FilterExact(OnTerminal(d.platformID), UserConns(DoRegister(policy, h, cached).users, d.userID));
    var olds := InfoOf(h.users, d).oldClients;
    FilterExact(OnTerminal(d.platformID), UserConns(h.users, d.userID));
    CloseAllCloses(h.(users := Removed(h.users, d.userID, Addrs(olds))), olds);
  }

  // ------------------------------------------------------------ whole runs

  function Other(n: Node): Node {
    if n.A? then B else A
  }

  /** What a happening does to one node: a step there, or at most new tokens. */
  lemma NodeNext(policy: int, nss: seq<Nodes>, xs: seq<Happening>, i: nat, n: Node)
    requires Trace(policy, nss, xs) && i < |xs|
    ensures Inv(policy, At(nss[i], n))
    ensures var (h, h') := (At(nss[i], n), At(nss[i + 1], n));
            if xs[i].node == n then Enabled(h, xs[i].event) && h' == Step(policy, h, xs[i].event)
            else h' == h.(tokens := h'.tokens, issued := h'.issued)
  {
    TraceOK(policy, nss, xs, i);
    assert NextAt(policy, nss, xs, i);
  }

  lemma {:induction false} DoomedLater(policy: int, nss: seq<Nodes>, xs: seq<Happening>, n: Node,
                                       k: nat, m: nat, c: Client)
    requires Trace(policy, nss, xs) && k <= m < |nss| && Doomed(policy, At(nss[k], n), c)
    ensures Doomed(policy, At(nss[m], n), c)
    decreases m
  {
    if k < m {
      DoomedLater(policy, nss, xs, n, k, m - 1, c);
      DoomedNext(policy, nss, xs, n, m - 1, c);
    }
  }

  lemma DoomedNext(policy: int, nss: seq<Nodes>, xs: seq<Happening>, n: Node, i: nat, c: Client)
    requires Trace(policy, nss, xs) && i < |xs| && Doomed(policy, At(nss[i], n), c)
    ensures Doomed(policy, At(nss[i + 1], n), c)
  {
    NodeNext(policy, nss, xs, i, n);
    if xs[i].node == n {
      DoomedStays(policy, At(nss[i], n), xs[i].event, c);
    }
  }

  lemma {:induction false} RegisteredLater(policy: int, nss: seq<Nodes>, xs: seq<Happening>, n: Node,
                                           k: nat, m: nat, c: Client)
    requires Trace(policy, nss, xs) && k <= m < |nss| && c in At(nss[k], n).registered
    ensures c in At(nss[m], n).registered
    decreases m
  {
    if k < m {
      RegisteredLater(policy, nss, xs, n, k, m - 1, c);
      NodeNext(policy, nss, xs, m - 1, n);
      if xs[m - 1].node == n {
        StaysOut(policy, At(nss[m - 1], n), xs[m - 1].event, c);
      }
    }
  }

  /** Between k and m nothing at node n is meant for d. */
  predicate LeftAlone(nss: seq<Nodes>, xs: seq<Happening>, n: Node, k: nat, m: nat, d: Client)
    requires m <= |xs| == |nss| - 1
  {
    forall i | k <= i < m && xs[i].node == n :: LeavesAlone(At(nss[i], n), xs[i].event, d)
  }

  lemma {:induction false} SafeLater(policy: int, nss: seq<Nodes>, xs: seq<Happening>, n: Node,
                                     k: nat, m: nat, d: Client)
    requires Trace(policy, nss, xs) && k <= m < |nss| && Safe(policy, At(nss[k], n), d)
    requires LeftAlone(nss, xs, n, k, m, d)
    ensures Safe(policy, At(nss[m], n), d)
    decreases m
  {
    if k < m {
      SafeLater(policy, nss, xs, n, k, m - 1, d);
      SafeNext(policy, nss, xs, n, m - 1, d);
    }
  }

  lemma SafeNext(policy: int, nss: seq<Nodes>, xs: seq<Happening>, n: Node, i: nat, d: Client)
    requires Trace(policy, nss, xs) && i < |xs| && Safe(policy, At(nss[i], n), d)
    requires xs[i].node == n ==> LeavesAlone(At(nss[i], n), xs[i].event, d)
    ensures Safe(policy, At(nss[i + 1], n), d)
  {
    NodeNext(policy, nss, xs, i, n);
    if xs[i].node == n {
      SafeStays(policy, At(nss[i], n), xs[i].event, d);
    }
  }

  /** Connection c is registered at node n by happening k. */
  predicate Registers(nss: seq<Nodes>, xs: seq<Happening>, n: Node, k: nat, c: Client)
    requires |nss| == |xs| + 1
  {
    && k < |xs| && xs[k].node == n && xs[k].event.Register?
    && At(nss[k], n).registerQ != [] && At(nss[k], n).registerQ[0] == c
  }

  /** ... and happening r reports it to the other node. */
  predicate LogsIn(nss: seq<Nodes>, xs: seq<Happening>, n: Node, k: nat, r: nat, c: Client)
    requires |nss| == |xs| + 1
  {
    && Registers(nss, xs, n, k, c) && k < r < |xs|
    && xs[r] == On(Other(n), Login(c.userID, c.platformID, c.token))
  }

  lemma RegisteredBy(policy: int, nss: seq<Nodes>, xs: seq<Happening>, n: Node, k: nat, m: nat, c: Client)
    requires Trace(policy, nss, xs) && Registers(nss, xs, n, k, c) && k < m < |nss|
    ensures c in At(nss[m], n).registered
  {
    NodeNext(policy, nss, xs, k, n);
    RegisteredLater(policy, nss, xs, n, k + 1, m, c);
  }

  lemma SafeBy(policy: int, nss: seq<Nodes>, xs: seq<Happening>, n: Node, k: nat, m: nat, d: Client)
    requires Trace(policy, nss, xs) && Registers(nss, xs, n, k, d) && d !in At(nss[k], n).closed
    requires k < m < |nss| && LeftAlone(nss, xs, n, k + 1, m, d)
    ensures Safe(policy, At(nss[m], n), d)
  {
    NodeNext(policy, nss, xs, k, n);
    SafeAfterRegister(policy, At(nss[k], n), xs[k].event.cached, d);
    SafeLater(policy, nss, xs, n, k + 1, m, d);
  }

  lemma ReportNext(policy: int, nss: seq<Nodes>, xs: seq<Happening>, n: Node, r: nat, token: string, d: Client)
    requires Trace(policy, nss, xs) && r < |xs| && d in At(nss[r], n).registered && Kicks(policy, d.platformID)
    requires xs[r] == On(n, Login(d.userID, d.platformID, token))
    ensures Doomed(policy, At(nss[r + 1], n), d)
  {
    NodeNext(policy, nss, xs, r, n);
    ReportDooms(policy, At(nss[r], n), token, d);
  }

  /** A report that comes after the registration of a connection on its terminal
      ends that connection. */
  lemma ReportEnds(policy: int, nss: seq<Nodes>, xs: seq<Happening>, n: Node, k: nat, r: nat, token: string, d: Client)
    requires Trace(policy, nss, xs) && Registers(nss, xs, n, k, d) && k < r < |xs|
    requires xs[r] == On(n, Login(d.userID, d.platformID, token)) && Kicks(policy, d.platformID)
    requires At(nss[|xs|], n).kickQ == []
    ensures !InMap(At(nss[|xs|], n).users, d)
  {
    RegisteredBy(policy, nss, xs, n, k, r, d);
    ReportNext(policy, nss, xs, n, r, token, d);
    DoomedLater(policy, nss, xs, n, r + 1, |xs|, d);
  }

  /** One that comes before it does not, if nothing else is meant for it. */
  lemma ReportSpares(policy: int, nss: seq<Nodes>, xs: seq<Happening>, n: Node, k: nat, d: Client)
    requires Trace(policy, nss, xs) && Registers(nss, xs, n, k, d) && d !in At(nss[k], n).closed
    requires LeftAlone(nss, xs, n, k + 1, |xs|, d)
    ensures InMap(At(nss[|xs|], n).users, d)
  {
    SafeBy(policy, nss, xs, n, k, |xs|, d);
  }

  /** Two logins on one terminal, c's at node A and d's at node B. */
  ghost predicate TwoLogins(policy: int, nss: seq<Nodes>, xs: seq<Happening>, c: Client, d: Client,
                            kc: nat, rc: nat, kd: nat, rd: nat) {
    && Trace(policy, nss, xs) && c.userID == d.userID && c.platformID == d.platformID && Kicks(policy, c.platformID)
    && LogsIn(nss, xs, A, kc, rc, c) && LogsIn(nss, xs, B, kd, rd, d)
  }

  /** Whatever else happens: once both nodes are through with the reports, at most
      one of the two connections is left. */
  lemma NeverBoth(policy: int, nss: seq<Nodes>, xs: seq<Happening>, c: Client, d: Client,
                  kc: nat, rc: nat, kd: nat, rd: nat)
    requires TwoLogins(policy, nss, xs, c, d, kc, rc, kd, rd)
    requires nss[|xs|].a.kickQ == [] && nss[|xs|].b.kickQ == []
    ensures !(InMap(nss[|xs|].a.users, c) && InMap(nss[|xs|].b.users, d))
  {
    if kc < rd {
      ReportEnds(policy, nss, xs, A, kc, rd, d.token, c);
    } else {
      ReportEnds(policy, nss, xs, B, kd, rc, c.token, d);
    }
  }

  /** Nothing but the other login is meant for a connection. */
  predicate Undisturbed(nss: seq<Nodes>, xs: seq<Happening>, n: Node, k: nat, r: nat, d: Client)
    requires |nss| == |xs| + 1 && k < |xs|
  {
    && d !in At(nss[k], n).closed
    && forall i | k < i < |xs| && i != r && xs[i].node == n :: LeavesAlone(At(nss[i], n), xs[i].event, d)
  }

  /** Who is left, exactly: each connection stays if and only if the other login's
      report was read before it was registered. So the later login stays if the
      earlier one was reported in time; if each report comes after the other
      registration, both connections are kicked and neither is left. */
  lemma WhoStays(policy: int, nss: seq<Nodes>, xs: seq<Happening>, c: Client, d: Client,
                 kc: nat, rc: nat, kd: nat, rd: nat)
    requires TwoLogins(policy, nss, xs, c, d, kc, rc, kd, rd)
    requires Undisturbed(nss, xs, A, kc, rd, c) && Undisturbed(nss, xs, B, kd, rc, d)
    requires nss[|xs|].a.kickQ == [] && nss[|xs|].b.kickQ == []
    ensures InMap(nss[|xs|].a.users, c) <==> rd < kc
    ensures InMap(nss[|xs|].b.users, d) <==> rc < kd
    ensures !InMap(nss[|xs|].a.users, c) && !InMap(nss[|xs|].b.users, d) <==> kc < rd && kd < rc
  {
    if kc < rd {
      ReportEnds(policy, nss, xs, A, kc, rd, d.token, c);
    } else {
      ReportSpares(policy, nss, xs, A, kc, c);
    }
    if kd < rc {
      ReportEnds(policy, nss, xs, B, kd, rc, c.token, d);
    } else {
      ReportSpares(policy, nss, xs, B, kd, d);
    }
  }

  // ---------------------------------------------------------------- tokens

  /** Will this report have that token refused? */
  predicate Marks(policy: int, info: KickInfo, key: TokenKey, token: string) {
    Kicks(policy, info.platformID) && info.clientOK && KeyOf(info.user, info.platformID) == key && info.token != token
  }

  predicate TokenDoomed(policy: int, h: Hub, key: TokenKey, token: string) {
    && token in h.issued
    && (Refused(h.tokens, key, token) || exists i | 0 <= i < |h.kickQ| :: Marks(policy, h.kickQ[i], key, token))
  }

  lemma TokenStays(policy: int, h: Hub, e: Event, key: TokenKey, token: string)
    requires Enabled(h, e) && TokenDoomed(policy, h, key, token) && (e.Kick? ==> e.cached)
    ensures TokenDoomed(policy, Step(policy, h, e), key, token)
  {
    QueueAfter(policy, h, e);
    IssuedGrows(policy, h, e, token);
    if Refused(h.tokens, key, token) {
      StepRefuses(policy, h, e, key, token);
    } else {
      var i :| 0 <= i < |h.kickQ| && Marks(policy, h.kickQ[i], key, token);
      var h' := Step(policy, h, e);
      if e.Kick? && i == 0 {
        LoginKicks(policy, h, e, token, key);
      } else {
        assert h'.kickQ[if e.Kick? then i - 1 else i] == h.kickQ[i];
      }
    }
  }

  lemma IssuedGrows(policy: int, h: Hub, e: Event, token: string)
    requires Enabled(h, e) && token in h.issued
    ensures token in Step(policy, h, e).issued
  {
    if e.Offline? {
      KickConnsTokens(h, OnPlatform(UserConns(h.users, e.user), e.platformID));
    }
  }

  /** Every report is carried out with the token cache answering. */
  predicate AllCached(xs: seq<Happening>) {
    forall i | 0 <= i < |xs| && xs[i].event.Kick? :: xs[i].event.cached
  }

  lemma {:induction false} TokenDoomedLater(policy: int, nss: seq<Nodes>, xs: seq<Happening>, n: Node, k: nat, m: nat,
                                            key: TokenKey, token: string)
    requires Trace(policy, nss, xs) && AllCached(xs) && k <= m < |nss|
    requires TokenDoomed(policy, At(nss[k], n), key, token)
    ensures TokenDoomed(policy, At(nss[m], n), key, token)
    decreases m
  {
    if k < m {
      TokenDoomedLater(policy, nss, xs, n, k, m - 1, key, token);
      TokenDoomedNext(policy, nss, xs, n, m - 1, key, token);
    }
  }

  lemma TokenDoomedNext(policy: int, nss: seq<Nodes>, xs: seq<Happening>, n: Node, i: nat, key: TokenKey, token: string)
    requires Trace(policy, nss, xs) && AllCached(xs) && i < |xs| && TokenDoomed(policy, At(nss[i], n), key, token)
    ensures TokenDoomed(policy, At(nss[i + 1], n), key, token)
  {
    TraceOK(policy, nss, xs, i);
    assert NextAt(policy, nss, xs, i);
    var (h, e) := (At(nss[i], xs[i].node), xs[i].event);
    if xs[i].node == n {
      TokenStays(policy, h, e, key, token);
    } else {
      IssuedGrows(policy, h, e, token);
      if Refused(h.tokens, key, token) {
        StepRefuses(policy, h, e, key, token);
      }
    }
  }

  /** Where both connections are lost, so are both tokens: the user can log in again
      on that terminal only with a new one. */
  lemma LockedOut(policy: int, nss: seq<Nodes>, xs: seq<Happening>, c: Client, d: Client,
                  kc: nat, rc: nat, kd: nat, rd: nat)
    requires TwoLogins(policy, nss, xs, c, d, kc, rc, kd, rd) && AllCached(xs) && c.token != d.token
    requires Undisturbed(nss, xs, A, kc, rd, c) && Undisturbed(nss, xs, B, kd, rc, d)
    requires nss[|xs|].a.kickQ == [] && nss[|xs|].b.kickQ == [] && kc < rd && kd < rc
    requires c.token in nss[rd].a.issued && d.token in nss[rc].b.issued
    ensures var key := KeyOf(c.userID, c.platformID);
            Refused(nss[|xs|].a.tokens, key, c.token) && Refused(nss[|xs|].b.tokens, key, d.token)
  {
    ReportMarks(policy, nss, xs, A, kc, rd, d.token, c);
    ReportMarks(policy, nss, xs, B, kd, rc, c.token, d);
    TokenDoomedLater(policy, nss, xs, A, rd + 1, |xs|, KeyOf(c.userID, c.platformID), c.token);
    TokenDoomedLater(policy, nss, xs, B, rc + 1, |xs|, KeyOf(d.userID, d.platformID), d.token);
  }

  lemma ReportMarks(policy: int, nss: seq<Nodes>, xs: seq<Happening>, n: Node, k: nat, r: nat, token: string, c: Client)
    requires Trace(policy, nss, xs) && Registers(nss, xs, n, k, c) && Undisturbed(nss, xs, n, k, r, c) && k < r < |xs|
    requires xs[r] == On(n, Login(c.userID, c.platformID, token)) && token != c.token && Kicks(policy, c.platformID)
    requires c.token in At(nss[r], n).issued
    ensures TokenDoomed(policy, At(nss[r + 1], n), KeyOf(c.userID, c.platformID), c.token)
  {
    SafeBy(policy, nss, xs, n, k, r, c);
    NodeNext(policy, nss, xs, r, n);
    LoginMarks(policy, At(nss[r], n), token, c);
  }

  lemma LoginMarks(policy: int, h: Hub, token: string, c: Client)
    requires InMap(h.users, c) && token != c.token && Kicks(policy, c.platformID) && c.token in h.issued
    ensures TokenDoomed(policy, DoLogin(h, c.userID, c.platformID, token), KeyOf(c.userID, c.platformID), c.token)
  {
    var h' := DoLogin(h, c.userID, c.platformID, token);
    FilterExact(OnTerminal(c.platformID), h.users[c.userID]);
    assert Marks(policy, h'.kickQ[|h.kickQ|], KeyOf(c.userID, c.platformID), c.token);
  }

  // --------------------------------------------------------------- a witness

  function Queued(c: Client): Hub {
    Blank().(known := {c}, registerQ := [c])
  }

  function ToldOf(c: Client, token: string): Hub {
    OnlyOne(c).(kickQ := [KickInfo(true, [c], c.userID, c.platformID, token)])
  }

  function Lost(c: Client): Hub {
    OnlyOne(c).(users := map[], closed := {c}, unregisterQ := [c], leaks := 1)
  }

  /** One node's part: its connection is registered, the other login is reported, and
      the report is carried out. */
  lemma OneLoses(policy: int, c: Client, token: string)
    requires Kicks(policy, c.platformID)
    ensures Enabled(Blank(), Connect(c)) && Step(policy, Blank(), Connect(c)) == Queued(c)
    ensures Step(policy, Queued(c), Register(true)) == OnlyOne(c)
    ensures Step(policy, OnlyOne(c), Login(c.userID, c.platformID, token)) == ToldOf(c, token)
    ensures Step(policy, ToldOf(c, token), Kick(true)) == Lost(c)
  {
    KeepsAll(OnTerminal(c.platformID), [c]);
    assert OnlyOne(c).users[c.userID] == [c];
    assert Addrs([c]) == {c.remoteAddr};
    KeepsNone(NotAt({c.remoteAddr}), [c]);
    assert [c][..0] == [];
    var h := OnlyOne(c).(users := map[], kickQ := ToldOf(c, token).kickQ);
    assert Removed(OnlyOne(c).users, c.userID, {c.remoteAddr}) == map[];
    assert CloseAll(h, [c]) == h.(closed := {c}, unregisterQ := [c]);
  }

  lemma MovesA(policy: int, h: Hub, e: Event, h': Hub, other: Hub)
    requires Enabled(h, e) && Step(policy, h, e) == h' && h'.tokens == other.tokens && h'.issued == other.issued
    ensures Next(policy, Nodes(h, other), On(A, e), Nodes(h', other))
  {
  }

  lemma MovesB(policy: int, h: Hub, e: Event, h': Hub, other: Hub)
    requires Enabled(h, e) && Step(policy, h, e) == h' && h'.tokens == other.tokens && h'.issued == other.issued
    ensures Next(policy, Nodes(other, h), On(B, e), Nodes(other, h'))
  {
  }

  function WitnessRun(c: Client, d: Client): seq<Happening> {
    [On(A, Connect(c)), On(B, Connect(d)), On(A, Register(true)), On(B, Register(true)),
     On(B, Login(c.userID, c.platformID, c.token)), On(A, Login(d.userID, d.platformID, d.token)),
     On(A, Kick(true)), On(B, Kick(true))]
  }

  function WitnessStates(c: Client, d: Client): seq<Nodes> {
    [Nodes(Blank(), Blank()), Nodes(Queued(c), Blank()), Nodes(Queued(c), Queued(d)),
     Nodes(OnlyOne(c), Queued(d)), Nodes(OnlyOne(c), OnlyOne(d)), Nodes(OnlyOne(c), ToldOf(d, c.token)),
     Nodes(ToldOf(c, d.token), ToldOf(d, c.token)), Nodes(Lost(c), ToldOf(d, c.token)), Nodes(Lost(c), Lost(d))]
  }

  lemma WitnessA(policy: int, c: Client, d: Client)
    requires c.userID == d.userID && c.platformID == d.platformID && Kicks(policy, c.platformID)
    ensures Next(policy, Nodes(Blank(), Blank()), On(A, Connect(c)), Nodes(Queued(c), Blank()))
    ensures Next(policy, Nodes(Queued(c), Queued(d)), On(A, Register(true)), Nodes(OnlyOne(c), Queued(d)))
    ensures var (tc, td) := (ToldOf(c, d.token), ToldOf(d, c.token));
            && Next(policy, Nodes(OnlyOne(c), td), On(A, Login(d.userID, d.platformID, d.token)), Nodes(tc, td))
            && Next(policy, Nodes(tc, td), On(A, Kick(true)), Nodes(Lost(c), td))
  {
    OneLoses(policy, c, d.token);
    MovesA(policy, Blank(), Connect(c), Queued(c), Blank());
    MovesA(policy, Queued(c), Register(true), OnlyOne(c), Queued(d));
    MovesA(policy, OnlyOne(c), Login(d.userID, d.platformID, d.token), ToldOf(c, d.token), ToldOf(d, c.token));
    MovesA(policy, ToldOf(c, d.token), Kick(true), Lost(c), ToldOf(d, c.token));
  }

  lemma WitnessB(policy: int, c: Client, d: Client)
    requires c.userID == d.userID && c.platformID == d.platformID && Kicks(policy, c.platformID)
    ensures Next(policy, Nodes(Queued(c), Blank()), On(B, Connect(d)), Nodes(Queued(c), Queued(d)))
    ensures Next(policy, Nodes(OnlyOne(c), Queued(d)), On(B, Register(true)), Nodes(OnlyOne(c), OnlyOne(d)))
    ensures var td := ToldOf(d, c.token);
            && Next(policy, Nodes(OnlyOne(c), OnlyOne(d)), On(B, Login(c.userID, c.platformID, c.token)),
                    Nodes(OnlyOne(c), td))
            && Next(policy, Nodes(Lost(c), td), On(B, Kick(true)), Nodes(Lost(c), Lost(d)))
  {
    OneLoses(policy, d, c.token);
    MovesB(policy, Blank(), Connect(d), Queued(d), Queued(c));
    MovesB(policy, Queued(d), Register(true), OnlyOne(d), OnlyOne(c));
    MovesB(policy, OnlyOne(d), Login(c.userID, c.platformID, c.token), ToldOf(d, c.token), OnlyOne(c));
    MovesB(policy, ToldOf(d, c.token), Kick(true), Lost(d), Lost(c));
  }

  lemma WitnessNextA(policy: int, c: Client, d: Client, i: nat)
    requires c.userID == d.userID && c.platformID == d.platformID && Kicks(policy, c.platformID)
    requires i == 0 || i == 2 || i == 5 || i == 6
    ensures NextAt(policy, WitnessStates(c, d), WitnessRun(c, d), i)
  {
    WitnessA(policy, c, d);
  }

  lemma WitnessNextB(policy: int, c: Client, d: Client, i: nat)
    requires c.userID == d.userID && c.platformID == d.platformID && Kicks(policy, c.platformID)
    requires i == 1 || i == 3 || i == 4 || i == 7
    ensures NextAt(policy, WitnessStates(c, d), WitnessRun(c, d), i)
  {
    WitnessB(policy, c, d);
  }

  /** Two logins in one run after which neither connection is left at any node. */
  lemma NeitherLeft(policy: int, c: Client, d: Client)
    requires c.userID == d.userID && c.platformID == d.platformID && Kicks(policy, c.platformID)
    ensures var (nss, xs) := (WitnessStates(c, d), WitnessRun(c, d));
            && TwoLogins(policy, nss, xs, c, d, 2, 4, 3, 5)
            && nss[0] == Nodes(Blank(), Blank()) && nss[8].a.users == nss[8].b.users == map[]
  {
    StartInv(policy, Blank());
    forall i | 0 <= i < 8 ensures NextAt(policy, WitnessStates(c, d), WitnessRun(c, d), i) {
      if i in {0, 2, 5, 6} {
        WitnessNextA(policy, c, d, i);
      } else {
        WitnessNextB(policy, c, d, i);
      }
    }
  }
}
