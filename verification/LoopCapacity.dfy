/** The event loop and the capacity of the queues it serves: closing a connection
    inside the loop sends to a queue that only the loop empties. */
module LoopCapacity {
  import opened Gateway
  import opened GatewayRuns
  import opened Sequences

  const CAPACITY := 1000

  // ------------------------------------------------------ closing in the loop

  /** Closing waits only for the first close of a connection to find room. */
  predicate HasRoom(h: Hub, c: Client) {
    c in h.closed || |h.unregisterQ| < CAPACITY
  }

  /** Can these connections be closed one after the other without anybody emptying
      the queue? */
  predicate ClosesThrough(h: Hub, cs: seq<Client>) {
    cs == [] || (ClosesThrough(h, cs[..|cs| - 1]) && HasRoom(CloseAll(h, cs[..|cs| - 1]), cs[|cs| - 1]))
  }

  /** Those that are still open. */
  function StillOpen(h: Hub, cs: seq<Client>): set<Client> {
    SetOf(cs) - h.closed
  }

  lemma {:induction false} CloseAllCloses(h: Hub, cs: seq<Client>)
    ensures CloseAll(h, cs).closed == h.closed + SetOf(cs)
  {
    if cs != [] {
      var (init, c) := (cs[..|cs| - 1], cs[|cs| - 1]);
      CloseAllCloses(h, init);
      assert cs == init + [c];
      OneMoreOpen(h, init, c);
    }
  }

  lemma {:induction false} CloseAllCounts(h: Hub, cs: seq<Client>)
    ensures |CloseAll(h, cs).unregisterQ| == |h.unregisterQ| + |StillOpen(h, cs)|
  {
    if cs != [] {
      var (init, c) := (cs[..|cs| - 1], cs[|cs| - 1]);
      CloseAllCounts(h, init);
      CloseAllCloses(h, init);
      assert cs == init + [c];
      OneMoreOpen(h, init, c);
    }
  }

  lemma OneMoreOpen(h: Hub, cs: seq<Client>, c: Client)
    ensures SetOf(cs + [c]) == SetOf(cs) + {c}
    ensures |StillOpen(h, cs + [c])| == |StillOpen(h, cs)| + if c in h.closed + SetOf(cs) then 0 else 1
  {
    assert (cs + [c])[|cs|] == c && forall d | d in cs :: d in cs + [c];
    assert SetOf(cs + [c]) == SetOf(cs) + {c};
    if c in h.closed + SetOf(cs) {
      assert StillOpen(h, cs + [c]) == StillOpen(h, cs);
    } else {
      assert StillOpen(h, cs + [c]) == StillOpen(h, cs) + {c};
    }
  }

  /** Exactly if there is room for all that are still open. */
  lemma {:induction false} ClosesThroughIff(h: Hub, cs: seq<Client>)
    requires |h.unregisterQ| <= 1000
    ensures ClosesThrough(h, cs) <==> |h.unregisterQ| + |StillOpen(h, cs)| <= 1000
  {
    if cs == [] {
      assert StillOpen(h, cs) == {};
    } else {
      var (init, c) := (cs[..|cs| - 1], cs[|cs| - 1]);
      ClosesThroughIff(h, init);
      CloseAllCounts(h, init);
      CloseAllCloses(h, init);
      OneMoreOpen(h, init, c);
      assert cs == init + [c];
    }
  }

  /** Does the event loop get to the end of a step by itself? */
  predicate Finishes(policy: int, h: Hub, e: Event)
    requires Enabled(h, e)
  {
    match e
    case Register(_) =>
      var info := InfoOf(h.users, h.registerQ[0]);
      Kicks(policy, info.platformID) && info.clientOK ==> ClosesThrough(h, info.oldClients)
    case Kick(_) =>
      Kicks(policy, h.kickQ[0].platformID) && h.kickQ[0].clientOK ==> ClosesThrough(h, h.kickQ[0].oldClients)
    case _ => true
  }

  /** A registration cannot finish exactly if the queue is full and the policy makes
      it kick a connection that is still open. */
  lemma RegisterBlocksIff(policy: int, h: Hub, cached: bool)
    requires Inv(policy, h) && |h.unregisterQ| <= 1000 && Enabled(h, Register(cached))
    ensures var c := h.registerQ[0];
            !Finishes(policy, h, Register(cached)) <==>
            && |h.unregisterQ| == 1000 && Kicks(policy, c.platformID)
            && exists d | d in UserConns(h.users, c.userID) :: d.platformID == c.platformID && d !in h.closed
  {
    var c := h.registerQ[0];
    var olds := OnPlatform(UserConns(h.users, c.userID), c.platformID);
    FilterExact(OnTerminal(c.platformID), UserConns(h.users, c.userID));
    if Kicks(policy, c.platformID) {
      ClosesThroughIff(h, olds);
      if d :| d in olds && d !in h.closed {
        assert StillOpen(h, olds) == {d};
      } else {
        assert StillOpen(h, olds) == {};
      }
    }
  }

  /** A reported login cannot finish exactly if it kicks more open connections than
      there is room for. */
  lemma KickBlocksIff(policy: int, h: Hub, cached: bool)
    requires |h.unregisterQ| <= 1000 && Enabled(h, Kick(cached))
    ensures var info := h.kickQ[0];
            !Finishes(policy, h, Kick(cached)) <==>
            && Kicks(policy, info.platformID) && info.clientOK
            && |h.unregisterQ| + |StillOpen(h, info.oldClients)| > 1000
  {
    ClosesThroughIff(h, h.kickQ[0].oldClients);
  }

  // ------------------------------------------------------------ blocked for good

  predicate WithoutLoop(es: seq<Event>) {
    forall e | e in es :: !e.Register? && !e.Unregister? && !e.Kick?
  }

  lemma {:induction false} KickConnsQueue(h: Hub, cs: seq<Client>)
    ensures |h.unregisterQ| <= |KickConns(h, cs).unregisterQ|
  {
    if cs != [] {
      KickConnsQueue(h, cs[..|cs| - 1]);
    }
  }

  /** Once the loop waits for room it waits for ever: nothing but the loop itself
      takes from the queue. */
  lemma {:induction false} BlockedForGood(policy: int, h: Hub, es: seq<Event>)
    requires Possible(policy, h, es) && WithoutLoop(es)
    ensures |h.unregisterQ| <= |Run(policy, h, es).unregisterQ|
    decreases |es|
  {
    if es != [] {
      assert es[0] in es && forall e | e in es[1..] :: e in es;
      if es[0].Offline? {
        KickConnsQueue(h, OnPlatform(UserConns(h.users, es[0].user), es[0].platformID));
      }
      BlockedForGood(policy, Step(policy, h, es[0]), es[1..]);
    }
  }

  // ------------------------------------------------------------ reaching it

  /** No queue is over capacity on the way, and the loop finishes every step. */
  predicate Fits(policy: int, h: Hub, es: seq<Event>)
    requires Possible(policy, h, es)
    decreases |es|
  {
    && |h.registerQ| <= CAPACITY && |h.unregisterQ| <= CAPACITY && |h.kickQ| <= CAPACITY
    && (es != [] ==> Finishes(policy, h, es[0]) && Fits(policy, Step(policy, h, es[0]), es[1..]))
  }

  lemma {:induction false} FitsConcat(policy: int, h: Hub, es: seq<Event>, rest: seq<Event>)
    requires Possible(policy, h, es) && Possible(policy, Run(policy, h, es), rest)
    requires Fits(policy, h, es) && Fits(policy, Run(policy, h, es), rest)
    ensures Possible(policy, h, es + rest) && Fits(policy, h, es + rest)
    decreases |es|
  {
    RunConcat(policy, h, es, rest);
    if es == [] {
      assert es + rest == rest;
    } else {
      FitsConcat(policy, Step(policy, h, es[0]), es[1..], rest);
      assert (es + rest)[1..] == es[1..] + rest;
    }
  }

  /** Connections of different users at different addresses. */
  predicate Crowd(cs: seq<Client>) {
    forall i, j | 0 <= i < j < |cs| :: cs[i].userID != cs[j].userID && cs[i].remoteAddr != cs[j].remoteAddr
  }

  /** All of them registered; all but the first closed, their unregistration queued. */
  ghost predicate Waiting(h: Hub, c: Client, cs: seq<Client>) {
    && h.registerQ == [] && h.kickQ == [] && h.unregisterQ == cs && h.done == {}
    && h.known == h.registered == {c} + SetOf(cs) && h.closed == SetOf(cs)
    && UserConns(h.users, c.userID) == [c]
    && forall u :: u in h.users <==> u == c.userID || exists x | x in cs :: x.userID == u
  }

  lemma ComeEnabled(policy: int, h: Hub, c: Client, cs: seq<Client>, x: Client)
    requires Waiting(h, c, cs) && Crowd([c] + cs + [x])
    ensures Enabled(h, Connect(x)) && x.userID !in h.users && x !in h.closed
    ensures x.userID != c.userID
  {
    var all := [c] + cs + [x];
    assert all[0] == c && all[|cs| + 1] == x && forall i | 0 <= i < |cs| :: all[i + 1] == cs[i];
    assert forall y | y in SetOf(cs) :: y in cs;
    assert Live(h) == h.known;
  }

  /** The gateway after x has come, registered and gone. */
  function WithOne(h: Hub, x: Client): Hub {
    h.(known := h.known + {x}, registered := h.registered + {x}, users := h.users[x.userID := [x]],
       userNum := h.userNum + 1, connNum := h.connNum + 1, closed := h.closed + {x}, unregisterQ := h.unregisterQ + [x])
  }

  lemma WithOneWaits(h: Hub, c: Client, cs: seq<Client>, x: Client)
    requires Waiting(h, c, cs) && x.userID != c.userID
    ensures Waiting(WithOne(h, x), c, cs + [x])
  {
    assert forall y | y in cs + [x] :: y in cs || y == x;
    assert (cs + [x])[|cs|] == x && forall y | y in cs :: y in cs + [x];
    assert SetOf(cs + [x]) == SetOf(cs) + {x};
  }

  lemma OneComes(policy: int, h: Hub, x: Client)
    requires h.registerQ == [] && h.kickQ == [] && |h.unregisterQ| < CAPACITY
    requires Enabled(h, Connect(x)) && x.userID !in h.users && x !in h.closed
    ensures var es := [Connect(x), Register(true), Drop(x)];
            Possible(policy, h, es) && Fits(policy, h, es) && Run(policy, h, es) == WithOne(h, x)
  {
    var h1 := h.(known := h.known + {x}, registerQ := [x]);
    assert Step(policy, h, Connect(x)) == h1;
    var h2 := Step(policy, h1, Register(true));
    assert h2 == WithOne(h, x).(closed := h.closed, unregisterQ := h.unregisterQ);
    assert Step(policy, h2, Drop(x)) == WithOne(h, x);
    RunCons(policy, h2, Drop(x), []);
    assert [Drop(x)] + [] == [Drop(x)];
    RunCons(policy, h1, Register(true), [Drop(x)]);
    assert [Register(true)] + [Drop(x)] == [Register(true), Drop(x)];
    RunCons(policy, h, Connect(x), [Register(true), Drop(x)]);
    assert [Connect(x)] + [Register(true), Drop(x)] == [Connect(x), Register(true), Drop(x)];
    OneFits(policy, h, h1, h2, x);
  }

  lemma OneFits(policy: int, h: Hub, h1: Hub, h2: Hub, x: Client)
    requires h.registerQ == [] && h.kickQ == h1.kickQ == h2.kickQ == []
    requires |h.unregisterQ| == |h1.unregisterQ| == |h2.unregisterQ| < CAPACITY
    requires |h1.registerQ| == 1 && h2.registerQ == [] && h1.registerQ[0] == x && x.userID !in h1.users
    requires Enabled(h, Connect(x)) && Step(policy, h, Connect(x)) == h1
    requires Enabled(h1, Register(true)) && Step(policy, h1, Register(true)) == h2
    requires Enabled(h2, Drop(x)) && Possible(policy, h, [Connect(x), Register(true), Drop(x)])
    ensures Fits(policy, h, [Connect(x), Register(true), Drop(x)])
  {
    var es := [Connect(x), Register(true), Drop(x)];
    assert es[1..] == [Register(true), Drop(x)] && [Register(true), Drop(x)][1..] == [Drop(x)] && [Drop(x)][1..] == [];
    var h3 := Step(policy, h2, Drop(x));
    assert Fits(policy, h3, []);
    assert Fits(policy, h2, [Drop(x)]);
    assert Fits(policy, h1, [Register(true), Drop(x)]);
  }

  /** As many as the queue takes. */
  lemma {:induction false} AllWait(policy: int, c: Client, cs: seq<Client>) returns (es: seq<Event>)
    requires Crowd([c] + cs) && |cs| <= CAPACITY
    ensures Possible(policy, Blank(), es) && Fits(policy, Blank(), es) && Waiting(Run(policy, Blank(), es), c, cs)
  {
    if cs == [] {
      es := [Connect(c), Register(true)];
      RegisterTheOnly(policy, c);
      OnlyFits(policy, c);
    } else {
      var (init, x) := (cs[..|cs| - 1], cs[|cs| - 1]);
      assert [c] + cs == [c] + init + [x] && cs == init + [x];
      assert forall i | 0 <= i < |[c] + init| :: ([c] + init)[i] == ([c] + cs)[i];
      var before := AllWait(policy, c, init);
      var h := Run(policy, Blank(), before);
      ComeEnabled(policy, h, c, init, x);
      OneComes(policy, h, x);
      WithOneWaits(h, c, init, x);
      RunConcat(policy, Blank(), before, [Connect(x), Register(true), Drop(x)]);
      FitsConcat(policy, Blank(), before, [Connect(x), Register(true), Drop(x)]);
      es := before + [Connect(x), Register(true), Drop(x)];
    }
  }

  lemma OnlyFits(policy: int, c: Client)
    requires Possible(policy, Blank(), [Connect(c), Register(true)])
    requires Run(policy, Blank(), [Connect(c), Register(true)]) == OnlyOne(c)
    ensures Fits(policy, Blank(), [Connect(c), Register(true)])
    ensures Waiting(OnlyOne(c), c, [])
  {
    var h1 := Step(policy, Blank(), Connect(c));
    assert [Connect(c), Register(true)][1..] == [Register(true)] && [Register(true)][1..] == [];
    assert h1.registerQ == [c];
    assert Step(policy, h1, Register(true)) == OnlyOne(c);
    assert Fits(policy, OnlyOne(c), []);
    assert Fits(policy, h1, [Register(true)]);
  }

  lemma NextConnects(policy: int, h: Hub, c: Client, d: Client, cs: seq<Client>)
    requires Waiting(h, c, cs) && |cs| == CAPACITY
    requires d.remoteAddr != c.remoteAddr && forall x | x in cs :: x.remoteAddr != d.remoteAddr
    ensures Enabled(h, Connect(d)) && Possible(policy, h, [Connect(d)]) && Fits(policy, h, [Connect(d)])
    ensures Run(policy, h, [Connect(d)]) == h.(known := h.known + {d}, registerQ := [d])
  {
    assert forall x | x in SetOf(cs) :: x in cs;
    assert Live(h) == h.known;
    var h' := h.(known := h.known + {d}, registerQ := [d]);
    assert Step(policy, h, Connect(d)) == h';
    assert [Connect(d)][1..] == [] && Fits(policy, h', []);
  }

  /** A connection that would replace one that is still open. */
  lemma NextBlocks(policy: int, h: Hub, c: Client, d: Client, cs: seq<Client>, cached: bool)
    requires Inv(policy, h) && Waiting(h, c, cs) && |cs| == CAPACITY && c !in cs && Enabled(h, Connect(d))
    requires d.userID == c.userID && d.platformID == c.platformID && Kicks(policy, c.platformID)
    ensures !Finishes(policy, h.(known := h.known + {d}, registerQ := [d]), Register(cached))
  {
    var h' := h.(known := h.known + {d}, registerQ := [d]);
    assert Step(policy, h, Connect(d)) == h';
    StepKeepsInv(policy, h, Connect(d));
    RegisterBlocksIff(policy, h', cached);
    assert c in UserConns(h'.users, d.userID) && c !in h'.closed;
  }

  /** A run without any step that could not finish and without any queue over
      capacity, after which the next registration blocks the event loop for ever. */
  lemma LoopBlocks(policy: int, c: Client, d: Client, cs: seq<Client>, cached: bool) returns (es: seq<Event>)
    requires Crowd([c] + cs) && |cs| == 1000
    requires d.userID == c.userID && d.platformID == c.platformID && Kicks(policy, c.platformID)
    requires forall x | x in [c] + cs :: x.remoteAddr != d.remoteAddr
    ensures Possible(policy, Blank(), es) && Fits(policy, Blank(), es)
    ensures var h := Run(policy, Blank(), es);
            h.registerQ == [d] && |h.unregisterQ| == 1000 && !Finishes(policy, h, Register(cached))
  {
    var before := AllWait(policy, c, cs);
    RunKeepsInv(policy, Blank(), before);
    var all := [c] + cs;
    assert all[0] == c && forall i | 0 <= i < |cs| :: all[i + 1] == cs[i];
    NextConnects(policy, Run(policy, Blank(), before), c, d, cs);
    NextBlocks(policy, Run(policy, Blank(), before), c, d, cs, cached);
    RunConcat(policy, Blank(), before, [Connect(d)]);
    FitsConcat(policy, Blank(), before, [Connect(d)]);
    es := before + [Connect(d)];
  }
}
