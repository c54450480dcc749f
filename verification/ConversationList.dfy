/** The sorted list of a user's conversations: those pinned first, each part with
    the newest message first, built through tables keyed by the time of the last
    message. */
module ConversationList {
  import opened Sequences

  /** What is shown of a conversation; the last three fields are filled in while the
      list is built. */
  class ConversationElem {
    const conversationID: string
    const latestMsgRecvTime: int
    var recvMsgOpt: int
    var isPinned: bool
    var unreadCount: int

    constructor (conversationID: string, latestMsgRecvTime: int)
      ensures this.conversationID == conversationID && this.latestMsgRecvTime == latestMsgRecvTime
      ensures recvMsgOpt == 0 && !isPinned && unreadCount == 0
    {
      this.conversationID, this.latestMsgRecvTime := conversationID, latestMsgRecvTime;
      recvMsgOpt, isPinned, unreadCount := 0, false, 0;
    }
  }

  /** A user's settings of a conversation. */
  datatype Conversation = Conversation(conversationID: string, recvMsgOpt: int, isPinned: bool)

  type Elems = map<string, ConversationElem>

  /** Every conversation has an element, and every element stands under its ID. */
  predicate Known(cs: seq<Conversation>, elems: Elems) {
    && (forall id | id in elems :: elems[id].conversationID == id)
    && (forall c | c in cs :: c.conversationID in elems)
    && forall i, j | 0 <= i < j < |cs| :: cs[i].conversationID != cs[j].conversationID
  }

  // ---------------------------------------------------------- time tables

  /** The table of the pinned or of the other conversations; of two with the same
      time the later stays. */
  function Slots(cs: seq<Conversation>, elems: Elems, pinned: bool): map<int, string>
    requires forall c | c in cs :: c.conversationID in elems
  {
    if cs == [] then map[]
    else
      var (before, c) := (Slots(cs[..|cs| - 1], elems, pinned), cs[|cs| - 1]);
      if c.isPinned == pinned then before[elems[c.conversationID].latestMsgRecvTime := c.conversationID] else before
  }

  /** A conversation of the class whose last message came at time t. */
  predicate At(c: Conversation, elems: Elems, pinned: bool, t: int)
    requires c.conversationID in elems
  {
    c.isPinned == pinned && elems[c.conversationID].latestMsgRecvTime == t
  }

  /** A table holds the last conversation of its class with each time ... */
  lemma {:induction false} SlotHolds(cs: seq<Conversation>, elems: Elems, pinned: bool, t: int, i: nat)
    requires forall c | c in cs :: c.conversationID in elems
    requires i < |cs| && At(cs[i], elems, pinned, t) && forall j | i < j < |cs| :: !At(cs[j], elems, pinned, t)
    ensures t in Slots(cs, elems, pinned) && Slots(cs, elems, pinned)[t] == cs[i].conversationID
  {
    if i < |cs| - 1 {
      SlotHolds(cs[..|cs| - 1], elems, pinned, t, i);
    }
  }

  /** ... and nothing else. */
  lemma {:induction false} SlotFrom(cs: seq<Conversation>, elems: Elems, pinned: bool, t: int) returns (i: nat)
    requires forall c | c in cs :: c.conversationID in elems
    requires t in Slots(cs, elems, pinned)
    ensures i < |cs| && At(cs[i], elems, pinned, t) && forall j | i < j < |cs| :: !At(cs[j], elems, pinned, t)
    ensures Slots(cs, elems, pinned)[t] == cs[i].conversationID
  {
    i := |cs| - 1;
    if !At(cs[i], elems, pinned, t) {
      i := SlotFrom(cs[..i], elems, pinned, t);
    }
  }

  // --------------------------------------------------------------- sorting

  predicate Descending(s: seq<int>) {
    forall i, j | 0 <= i < j < |s| :: s[i] > s[j]
  }

  function Insert(x: int, s: seq<int>): seq<int> {
    if s == [] || x > s[0] then [x] + s else [s[0]] + Insert(x, s[1..])
  }

  /** The library sort, largest first. */
  function SortDesc(s: seq<int>): seq<int> {
    if s == [] then [] else Insert(s[0], SortDesc(s[1..]))
  }

  lemma {:induction false} InsertElements(x: int, s: seq<int>)
    ensures multiset(Insert(x, s)) == multiset(s) + multiset{x}
  {
    if s != [] && x <= s[0] {
      InsertElements(x, s[1..]);
      assert s == [s[0]] + s[1..];
    }
  }

  lemma {:induction false} InsertDescending(x: int, s: seq<int>)
    requires Descending(s) && x !in s
    ensures Descending(Insert(x, s))
  {
    if s != [] && x <= s[0] {
      InsertDescending(x, s[1..]);
      InsertElements(x, s[1..]);
      var rest := Insert(x, s[1..]);
      forall j | 0 <= j < |rest| ensures s[0] > rest[j] {
        assert rest[j] in multiset(rest);
      }
    }
  }

  lemma {:induction false} SortDescExact(s: seq<int>)
    requires forall i, j | 0 <= i < j < |s| :: s[i] != s[j]
    ensures Descending(SortDesc(s)) && multiset(SortDesc(s)) == multiset(s)
  {
    if s != [] {
      SortDescExact(s[1..]);
      assert s == [s[0]] + s[1..];
      assert s[0] !in multiset(s[1..]);
      assert s[0] !in SortDesc(s[1..]);
      InsertElements(s[0], SortDesc(s[1..]));
      InsertDescending(s[0], SortDesc(s[1..]));
    }
  }

  /** A descending list is determined by its elements. */
  lemma {:induction false} DescendingUnique(s: seq<int>, s': seq<int>)
    requires Descending(s) && Descending(s') && SetOf(s) == SetOf(s')
    ensures s == s'
  {
    assert s == [] <==> SetOf(s) == {} by {
      assert s != [] ==> s[0] in SetOf(s);
    }
    assert s' == [] <==> SetOf(s') == {} by {
      assert s' != [] ==> s'[0] in SetOf(s');
    }
    if s != [] {
      assert s[0] in SetOf(s') && s'[0] in SetOf(s);
      var i :| 0 <= i < |s| && s[i] == s'[0];
      var j :| 0 <= j < |s'| && s'[j] == s[0];
      assert s[0] == s'[0];
      forall x ensures x in SetOf(s[1..]) <==> x in SetOf(s'[1..]) {
        assert x in SetOf(s[1..]) <==> x in SetOf(s) && x != s[0] by {
          assert s == [s[0]] + s[1..];
        }
        assert x in SetOf(s'[1..]) <==> x in SetOf(s') && x != s'[0] by {
          assert s' == [s'[0]] + s'[1..];
        }
      }
      DescendingUnique(s[1..], s'[1..]);
      assert s == [s[0]] + s[1..] && s' == [s'[0]] + s'[1..];
    }
  }

  /** The IDs of a table, those of the newest times first. */
  ghost predicate InOrder(ids: seq<string>, slots: map<int, string>, keys: seq<int>) {
    && Descending(keys) && SetOf(keys) == slots.Keys && |ids| == |keys|
    && forall i | 0 <= i < |keys| :: ids[i] == slots[keys[i]]
  }

  function Ids(es: seq<ConversationElem>): seq<string> {
    seq(|es|, i requires 0 <= i < |es| => es[i].conversationID)
  }

  /** What the list must be: the pinned ones in order, then the others in order. */
  ghost predicate IsSorted(ids: seq<string>, cs: seq<Conversation>, elems: Elems)
    requires forall c | c in cs :: c.conversationID in elems
  {
    exists pinned, others, pinnedKeys, otherKeys ::
      && InOrder(pinned, Slots(cs, elems, true), pinnedKeys)
      && InOrder(others, Slots(cs, elems, false), otherKeys)
      && ids == pinned + others
  }

  // ---------------------------------------------------------- what is listed

  /** One part of the list: conversations of the class, newest first, none twice. */
  predicate GoodPart(ids: seq<string>, cs: seq<Conversation>, elems: Elems, pinned: bool) {
    && (forall id | id in ids :: id in elems && exists c | c in cs :: c.isPinned == pinned && c.conversationID == id)
    && forall i, j | 0 <= i < j < |ids| :: elems[ids[i]].latestMsgRecvTime > elems[ids[j]].latestMsgRecvTime
  }

  lemma PartIsGood(ids: seq<string>, cs: seq<Conversation>, elems: Elems, pinned: bool, keys: seq<int>)
    requires Known(cs, elems) && InOrder(ids, Slots(cs, elems, pinned), keys)
    ensures GoodPart(ids, cs, elems, pinned)
    ensures forall i | 0 <= i < |ids| :: elems[ids[i]].latestMsgRecvTime == keys[i]
  {
    forall i | 0 <= i < |ids|
      ensures ids[i] in elems && elems[ids[i]].latestMsgRecvTime == keys[i]
      ensures exists c | c in cs :: c.isPinned == pinned && c.conversationID == ids[i]
    {
      assert keys[i] in SetOf(keys);
      var k := SlotFrom(cs, elems, pinned, keys[i]);
      assert cs[k] in cs;
    }
  }

  /** A conversation is in its part exactly if no later one of its class has its
      time. */
  lemma PartHas(ids: seq<string>, cs: seq<Conversation>, elems: Elems, pinned: bool, keys: seq<int>, i: nat)
    requires Known(cs, elems) && InOrder(ids, Slots(cs, elems, pinned), keys)
    requires i < |cs| && cs[i].isPinned == pinned
    ensures cs[i].conversationID in ids <==>
            forall j | i < j < |cs| :: !At(cs[j], elems, pinned, elems[cs[i].conversationID].latestMsgRecvTime)
  {
    var t := elems[cs[i].conversationID].latestMsgRecvTime;
    if cs[i].conversationID in ids {
      var k :| 0 <= k < |ids| && ids[k] == cs[i].conversationID;
      assert keys[k] in SetOf(keys);
      var m := SlotFrom(cs, elems, pinned, keys[k]);
      assert m == i;
    }
    if forall j | i < j < |cs| :: !At(cs[j], elems, pinned, t) {
      SlotHolds(cs, elems, pinned, t, i);
      assert t in SetOf(keys);
      var k :| 0 <= k < |keys| && keys[k] == t;
      assert ids[k] == cs[i].conversationID;
    }
  }

  /** No two conversations of a class have their last messages at the same time. */
  predicate DistinctTimes(cs: seq<Conversation>, elems: Elems)
    requires forall c | c in cs :: c.conversationID in elems
  {
    forall i, j | 0 <= i < j < |cs| && cs[i].isPinned == cs[j].isPinned ::
      elems[cs[i].conversationID].latestMsgRecvTime != elems[cs[j].conversationID].latestMsgRecvTime
  }

  /** Whatever the times: the pinned come first, each part is strictly newest first,
      and nothing is listed twice or out of nowhere. */
  lemma ListOrdered(ids: seq<string>, cs: seq<Conversation>, elems: Elems)
    returns (pinned: seq<string>, others: seq<string>)
    requires Known(cs, elems) && IsSorted(ids, cs, elems)
    ensures ids == pinned + others && GoodPart(pinned, cs, elems, true) && GoodPart(others, cs, elems, false)
    ensures NoDup(ids)
  {
    var pinnedKeys, otherKeys;
    pinned, others, pinnedKeys, otherKeys :|
      && InOrder(pinned, Slots(cs, elems, true), pinnedKeys)
      && InOrder(others, Slots(cs, elems, false), otherKeys)
      && ids == pinned + others;
    PartIsGood(pinned, cs, elems, true, pinnedKeys);
    PartIsGood(others, cs, elems, false, otherKeys);
    forall i, j | 0 <= i < j < |ids| ensures ids[i] != ids[j] {
      PartsApart(pinned, others, cs, elems, i, j);
    }
  }

  lemma PartsApart(pinned: seq<string>, others: seq<string>, cs: seq<Conversation>, elems: Elems, i: nat, j: nat)
    requires Known(cs, elems) && GoodPart(pinned, cs, elems, true) && GoodPart(others, cs, elems, false)
    requires i < j < |pinned + others|
    ensures (pinned + others)[i] != (pinned + others)[j]
  {
    if i < |pinned| <= j {
      var (a, b) := (pinned[i], others[j - |pinned|]);
      assert a in pinned && b in others;
      var c :| c in cs && c.isPinned && c.conversationID == a;
      var d :| d in cs && !d.isPinned && d.conversationID == b;
      assert c != d;
    }
  }

  function IdsOf(cs: seq<Conversation>): (ids: seq<string>)
    ensures |ids| == |cs| && forall i | 0 <= i < |cs| :: ids[i] == cs[i].conversationID
  {
    seq(|cs|, i requires 0 <= i < |cs| => cs[i].conversationID)
  }

  lemma ListedIff(ids: seq<string>, cs: seq<Conversation>, elems: Elems, i: nat)
    requires Known(cs, elems) && IsSorted(ids, cs, elems) && i < |cs|
    ensures cs[i].conversationID in ids <==>
            forall j | i < j < |cs| && cs[j].isPinned == cs[i].isPinned ::
              elems[cs[j].conversationID].latestMsgRecvTime != elems[cs[i].conversationID].latestMsgRecvTime
  {
    var pinned, others, pinnedKeys, otherKeys :|
      && InOrder(pinned, Slots(cs, elems, true), pinnedKeys)
      && InOrder(others, Slots(cs, elems, false), otherKeys)
      && ids == pinned + others;
    var id := cs[i].conversationID;
    PartIsGood(pinned, cs, elems, true, pinnedKeys);
    PartIsGood(others, cs, elems, false, otherKeys);
    if cs[i].isPinned {
      PartHas(pinned, cs, elems, true, pinnedKeys, i);
      OtherClass(others, cs, elems, false, i);
    } else {
      PartHas(others, cs, elems, false, otherKeys, i);
      OtherClass(pinned, cs, elems, true, i);
    }
    var time := elems[cs[i].conversationID].latestMsgRecvTime;
    assert forall j | i < j < |cs| :: At(cs[j], elems, cs[i].isPinned, time) <==>
      cs[j].isPinned == cs[i].isPinned && elems[cs[j].conversationID].latestMsgRecvTime == time;
  }

  lemma OtherClass(ids: seq<string>, cs: seq<Conversation>, elems: Elems, pinned: bool, i: nat)
    requires Known(cs, elems) && GoodPart(ids, cs, elems, pinned) && i < |cs| && cs[i].isPinned != pinned
    ensures cs[i].conversationID !in ids
  {
  }

  lemma {:induction false} SameElements(a: seq<string>, b: seq<string>)
    requires NoDup(a) && NoDup(b) && forall x :: x in a <==> x in b
    ensures multiset(a) == multiset(b)
  {
    forall x ensures multiset(a)[x] == multiset(b)[x] {
      Once(a, x);
      Once(b, x);
    }
  }

  lemma {:induction false} Once(s: seq<string>, x: string)
    requires NoDup(s)
    ensures multiset(s)[x] == if x in s then 1 else 0
  {
    if s != [] {
      var n := |s| - 1;
      assert s == s[..n] + [s[n]];
      Once(s[..n], x);
    }
  }

  /** The list is a permutation of the user's conversations exactly if no two of a
      class have the same time. */
  lemma ListComplete(ids: seq<string>, cs: seq<Conversation>, elems: Elems)
    requires Known(cs, elems) && IsSorted(ids, cs, elems)
    ensures multiset(ids) == multiset(IdsOf(cs)) <==> DistinctTimes(cs, elems)
  {
    var pinned, others := ListOrdered(ids, cs, elems);
    if DistinctTimes(cs, elems) {
      forall x ensures x in ids <==> x in IdsOf(cs) {
        if x in IdsOf(cs) {
          var i :| 0 <= i < |cs| && cs[i].conversationID == x;
          ListedIff(ids, cs, elems, i);
        }
        if x in ids {
          var c :| c in cs && c.conversationID == x;
          var i :| 0 <= i < |cs| && cs[i] == c;
          assert IdsOf(cs)[i] == x;
        }
      }
      SameElements(ids, IdsOf(cs));
    } else {
      var i, j :| 0 <= i < j < |cs| && cs[i].isPinned == cs[j].isPinned
                  && elems[cs[i].conversationID].latestMsgRecvTime == elems[cs[j].conversationID].latestMsgRecvTime;
      ListedIff(ids, cs, elems, i);
      assert At(cs[j], elems, cs[i].isPinned, elems[cs[i].conversationID].latestMsgRecvTime);
      var x := cs[i].conversationID;
      assert IdsOf(cs)[i] == x;
      assert x in multiset(IdsOf(cs)) && x !in multiset(ids);
    }
  }

  /** Two conversations of a class with one time: the first is never listed. */
  lemma EqualTimesDrop(a: ConversationElem, b: ConversationElem, pinned: bool, ids: seq<string>)
    requires a.conversationID == "a" && b.conversationID == "b" && a.latestMsgRecvTime == b.latestMsgRecvTime
    ensures var (cs, elems) := ([Conversation("a", 0, pinned), Conversation("b", 0, pinned)], map["a" := a, "b" := b]);
            Known(cs, elems) && (IsSorted(ids, cs, elems) ==> "a" !in ids && "b" in ids)
  {
    var (cs, elems) := ([Conversation("a", 0, pinned), Conversation("b", 0, pinned)], map["a" := a, "b" := b]);
    if IsSorted(ids, cs, elems) {
      ListedIff(ids, cs, elems, 0);
      ListedIff(ids, cs, elems, 1);
      assert At(cs[1], elems, pinned, a.latestMsgRecvTime);
    }
  }

  // ----------------------------------------------------------------- unread

  function Unread(maxSeqs: map<string, int>, hasReadSeqs: map<string, int>, id: string): int
    requires id in maxSeqs
  {
    maxSeqs[id] - if id in hasReadSeqs then hasReadSeqs[id] else 0
  }

  function Count(unread: map<string, int>, id: string): int {
    if id in unread then unread[id] else 0
  }

  function Total(ids: seq<string>, unread: map<string, int>): int {
    if ids == [] then 0 else Total(ids[..|ids| - 1], unread) + Count(unread, ids[|ids| - 1])
  }

  lemma {:induction false} TotalWithout(ids: seq<string>, unread: map<string, int>, i: nat)
    requires i < |ids|
    ensures Total(ids, unread) == Total(ids[..i] + ids[i + 1..], unread) + Count(unread, ids[i])
  {
    var n := |ids| - 1;
    var rest := ids[..i] + ids[i + 1..];
    if i == n {
      assert rest == ids[..n];
    } else {
      var init := ids[..n];
      TotalWithout(init, unread, i);
      LastOfRest(ids, i);
      assert Total(rest, unread) == Total(init[..i] + init[i + 1..], unread) + Count(unread, ids[n]);
    }
  }

  lemma LastOfRest(ids: seq<string>, i: nat)
    requires i < |ids| - 1
    ensures var (n, rest) := (|ids| - 1, ids[..i] + ids[i + 1..]);
            && rest[|rest| - 1] == ids[n] && ids[..n][i] == ids[i]
            && rest[..|rest| - 1] == ids[..n][..i] + ids[..n][i + 1..]
  {
  }

  lemma RemoveAt(s: seq<string>, i: nat)
    requires i < |s|
    ensures multiset(s[..i] + s[i + 1..]) == multiset(s) - multiset{s[i]}
  {
    assert s == s[..i] + [s[i]] + s[i + 1..];
  }

  /** The sum does not depend on the order. */
  lemma {:induction false} TotalPermutes(a: seq<string>, b: seq<string>, unread: map<string, int>)
    requires multiset(a) == multiset(b)
    ensures Total(a, unread) == Total(b, unread)
  {
    if a == [] {
      assert |multiset(b)| == 0;
    } else {
      var n := |a| - 1;
      RemoveAt(a, n);
      assert a[..n] + a[n + 1..] == a[..n];
      assert a[n] in multiset(b);
      var i :| 0 <= i < |b| && b[i] == a[n];
      RemoveAt(b, i);
      TotalPermutes(a[..n], b[..i] + b[i + 1..], unread);
      TotalWithout(b, unread, i);
    }
  }

  /** A sum over a set of conversations, taken in some order. */
  ghost predicate IsTotal(total: int, ids: set<string>, unread: map<string, int>) {
    exists order :: NoDup(order) && SetOf(order) == ids && total == Total(order, unread)
  }

  lemma TotalUnique(total: int, ids: seq<string>, unread: map<string, int>)
    requires NoDup(ids) && IsTotal(total, SetOf(ids), unread)
    ensures total == Total(ids, unread)
  {
    var order :| NoDup(order) && SetOf(order) == SetOf(ids) && total == Total(order, unread);
    forall x ensures x in order <==> x in ids {
      assert x in SetOf(order) <==> x in SetOf(ids);
    }
    SameElements(order, ids);
    TotalPermutes(order, ids, unread);
  }

  /** If no two conversations of a class have the same time and the newest
      positions known are those of the user's conversations, the unread counts of
      the list add up to the total reported. */
  lemma UnreadAddsUp(ids: seq<string>, cs: seq<Conversation>, elems: Elems, unread: map<string, int>, total: int)
    requires Known(cs, elems) && IsSorted(ids, cs, elems) && DistinctTimes(cs, elems)
    requires IsTotal(total, SetOf(IdsOf(cs)), unread)
    ensures Total(ids, unread) == total
  {
    ListComplete(ids, cs, elems);
    TotalPermutes(ids, IdsOf(cs), unread);
    TotalUnique(total, IdsOf(cs), unread);
  }

  // --------------------------------------------------------------- service

  /** The table's entries have been summed up in this order. */
  ghost predicate Summed(total: int, order: seq<string>, unread: map<string, int>) {
    NoDup(order) && SetOf(order) == unread.Keys && total == Total(order, unread)
  }

  lemma SummedIsTotal(total: int, order: seq<string>, unread: map<string, int>)
    requires Summed(total, order, unread)
    ensures IsTotal(total, unread.Keys, unread)
  {
  }

  lemma SumMore(total: int, order: seq<string>, unread: map<string, int>, id: string, count: int)
    requires id !in unread && Summed(total, order, unread)
    ensures Summed(total + count, order + [id], unread[id := count])
  {
    TotalMore(order, unread, id, count);
  }

  lemma SetOfMore<T>(s: seq<T>, x: T)
    ensures SetOf(s + [x]) == SetOf(s) + {x}
  {
  }

  lemma TotalMore(order: seq<string>, unread: map<string, int>, id: string, count: int)
    requires id !in unread && NoDup(order) && SetOf(order) == unread.Keys
    ensures Total(order + [id], unread[id := count]) == Total(order, unread) + count
    ensures NoDup(order + [id]) && SetOf(order + [id]) == unread.Keys + {id}
  {
    SetOfMore(order, id);
    assert id !in SetOf(order);
    assert forall i | 0 <= i < |order| :: order[i] != id;
    TotalSame(order, unread, id, count);
    assert (order + [id])[..|order|] == order;
  }

  lemma {:induction false} TotalSame(order: seq<string>, unread: map<string, int>, id: string, count: int)
    requires id !in order
    ensures Total(order, unread[id := count]) == Total(order, unread)
  {
    if order != [] {
      TotalSame(order[..|order| - 1], unread, id, count);
    }
  }

  /** Sums that begin with 0 and take in, one after another, the positions known and
      not read. */
  ghost predicate RunningSums(sums: seq<int>, order: seq<string>, maxSeqs: map<string, int>,
                              hasReadSeqs: map<string, int>) {
    && |sums| == |order| + 1 && sums[0] == 0
    && (forall i | 0 <= i < |order| :: order[i] in maxSeqs)
    && forall i | 0 <= i < |order| :: sums[i + 1] == sums[i] + Unread(maxSeqs, hasReadSeqs, order[i])
  }

  lemma SumsMore(sums: seq<int>, order: seq<string>, maxSeqs: map<string, int>, hasReadSeqs: map<string, int>,
                 id: string)
    requires RunningSums(sums, order, maxSeqs, hasReadSeqs) && id in maxSeqs
    ensures RunningSums(sums + [sums[|order|] + Unread(maxSeqs, hasReadSeqs, id)], order + [id], maxSeqs, hasReadSeqs)
  {
  }

  /** The total and the table of unread counts; positions never read count as 0. The
      order says in which order the table was walked, and the sums what the total was
      on the way. */
  method CountUnread(maxSeqs: map<string, int>, hasReadSeqs: map<string, int>)
    returns (unreadTotal: int, unread: map<string, int>, ghost order: seq<string>, ghost sums: seq<int>)
    ensures unread.Keys == maxSeqs.Keys && forall id | id in unread :: unread[id] == Unread(maxSeqs, hasReadSeqs, id)
    ensures Summed(unreadTotal, order, unread)
    ensures RunningSums(sums, order, maxSeqs, hasReadSeqs) && sums[|order|] == unreadTotal
  {
    unreadTotal, unread, order, sums := 0, map[], [], [0];
    var todo := maxSeqs.Keys;
    while todo != {}
      invariant todo <= maxSeqs.Keys && unread.Keys == maxSeqs.Keys - todo
      invariant forall id | id in unread :: unread[id] == Unread(maxSeqs, hasReadSeqs, id)
      invariant Summed(unreadTotal, order, unread)
      invariant RunningSums(sums, order, maxSeqs, hasReadSeqs) && sums[|order|] == unreadTotal
    {
      var id :| id in todo;
      var unreadCount := maxSeqs[id] - if id in hasReadSeqs then hasReadSeqs[id] else 0;
      SumMore(unreadTotal, order, unread, id, unreadCount);
      SumsMore(sums, order, maxSeqs, hasReadSeqs, id);
      unread := unread[id := unreadCount];
      unreadTotal := unreadTotal + unreadCount;
      order, sums := order + [id], sums + [unreadTotal];
      todo := todo - {id};
    }
    assert todo == {};
  }

  lemma NonEmpty(s: set<int>)
    requires s != {}
    ensures exists k :: k in s
  {
    assert (forall k :: k !in s) ==> s == {};
  }

  /** The keys of a table, in any order. */
  method KeysOf(slots: map<int, string>) returns (keys: seq<int>)
    ensures SetOf(keys) == slots.Keys && forall i, j | 0 <= i < j < |keys| :: keys[i] != keys[j]
  {
    keys := [];
    var todo := slots.Keys;
    while todo != {}
      invariant todo <= slots.Keys
      invariant forall k :: k in keys <==> k in slots && k !in todo
      invariant forall i, j | 0 <= i < j < |keys| :: keys[i] != keys[j]
    {
      NonEmpty(todo);
      var k :| k in todo;
      assert forall i | 0 <= i < |keys| :: keys[i] in keys;
      assert forall x :: x in keys + [k] <==> x in keys || x == k;
      keys := keys + [k];
      todo := todo - {k};
    }
    forall k ensures k in SetOf(keys) <==> k in slots.Keys {
      assert k in SetOf(keys) <==> k in keys;
    }
  }

  method SortedKeys(slots: map<int, string>) returns (keys: seq<int>)
    ensures Descending(keys) && SetOf(keys) == slots.Keys
  {
    var found := KeysOf(slots);
    keys := SortDesc(found);
    SortDescExact(found);
    forall x ensures x in SetOf(keys) <==> x in SetOf(found) {
      assert x in multiset(keys) <==> x in multiset(found);
    }
  }

  /** conversationSort: the elements of one table, newest first, each given its
      unread count. */
  method ConversationSort(slots: map<int, string>, unread: map<string, int>, elems: Elems)
    returns (cons: seq<ConversationElem>, ghost sorted: seq<int>)
    requires forall id | id in elems :: elems[id].conversationID == id
    requires forall t | t in slots :: slots[t] in elems
    modifies elems.Values
    ensures InOrder(Ids(cons), slots, sorted) && forall e | e in cons :: e in elems.Values
    ensures forall e | e in elems.Values ::
              && e.unreadCount == (if e in cons then Count(unread, e.conversationID) else old(e.unreadCount))
              && e.recvMsgOpt == old(e.recvMsgOpt) && e.isPinned == old(e.isPinned)
  {
    var keys := SortedKeys(slots);
    cons, sorted := [], keys;
    for i := 0 to |keys|
      invariant |cons| == i
      invariant forall j | 0 <= j < i :: cons[j] in elems.Values && cons[j].conversationID == slots[keys[j]]
      invariant forall e | e in elems.Values ::
                  && e.unreadCount == (if e in cons then Count(unread, e.conversationID) else old(e.unreadCount))
                  && e.recvMsgOpt == old(e.recvMsgOpt) && e.isPinned == old(e.isPinned)
    {
      assert keys[i] in SetOf(keys);
      var conversationID := slots[keys[i]];
      var conversationElem := elems[conversationID];
      conversationElem.unreadCount := if conversationID in unread then unread[conversationID] else 0;
      cons := cons + [conversationElem];
    }
  }

  /** The loop over the conversations: their settings go into the elements, their
      IDs into the two tables. */
  method FillTables(cs: seq<Conversation>, elems: Elems) returns (pinned: map<int, string>, others: map<int, string>)
    requires Known(cs, elems)
    modifies elems.Values
    ensures pinned == Slots(cs, elems, true) && others == Slots(cs, elems, false)
    ensures forall i | 0 <= i < |cs| ::
              var e := elems[cs[i].conversationID];
              e.recvMsgOpt == cs[i].recvMsgOpt && e.isPinned == (cs[i].isPinned || old(e.isPinned))
    ensures forall e | e in elems.Values && (forall c | c in cs :: c.conversationID != e.conversationID) ::
              e.recvMsgOpt == old(e.recvMsgOpt) && e.isPinned == old(e.isPinned)
    ensures forall e | e in elems.Values :: e.unreadCount == old(e.unreadCount)
  {
    pinned, others := map[], map[];
    ghost var ids := set c | c in cs :: c.conversationID;
    for i := 0 to |cs|
      invariant pinned == Slots(cs[..i], elems, true) && others == Slots(cs[..i], elems, false)
      invariant forall j | 0 <= j < i ::
                  var e := elems[cs[j].conversationID];
                  e.recvMsgOpt == cs[j].recvMsgOpt && e.isPinned == (cs[j].isPinned || old(e.isPinned))
      invariant forall j | i <= j < |cs| ::
                  elems[cs[j].conversationID].isPinned == old(elems[cs[j].conversationID].isPinned)
      invariant forall e | e in elems.Values && e.conversationID !in ids ::
                  e.recvMsgOpt == old(e.recvMsgOpt) && e.isPinned == old(e.isPinned)
      invariant forall e | e in elems.Values :: e.unreadCount == old(e.unreadCount)
    {
      assert cs[..i + 1][..i] == cs[..i];
      var v := cs[i];
      var e := elems[v.conversationID];
      var time := e.latestMsgRecvTime;
      assert forall j | 0 <= j < |cs| && j != i :: elems[cs[j].conversationID] != e;
      e.recvMsgOpt := v.recvMsgOpt;
      if v.isPinned {
        e.isPinned := v.isPinned;
        pinned := pinned[time := v.conversationID];
      } else {
        others := others[time := v.conversationID];
      }
    }
    assert cs[..|cs|] == cs;
  }

  function SumUnread(es: seq<ConversationElem>): int
    reads es
  {
    if es == [] then 0 else SumUnread(es[..|es| - 1]) + es[|es| - 1].unreadCount
  }

  lemma {:induction false} SumIsTotal(es: seq<ConversationElem>, unread: map<string, int>)
    requires forall e | e in es :: e.unreadCount == Count(unread, e.conversationID)
    ensures SumUnread(es) == Total(Ids(es), unread)
  {
    if es != [] {
      var n := |es| - 1;
      assert es[n] in es && forall e | e in es[..n] :: e in es;
      SumIsTotal(es[..n], unread);
      assert Ids(es)[..n] == Ids(es[..n]);
    }
  }

  lemma SlotsKnown(cs: seq<Conversation>, elems: Elems, pinned: bool)
    requires Known(cs, elems)
    ensures forall t | t in Slots(cs, elems, pinned) :: Slots(cs, elems, pinned)[t] in elems
  {
  }

  lemma PartsMakeList(pinned: seq<ConversationElem>, others: seq<ConversationElem>, cs: seq<Conversation>, elems: Elems,
                      pinnedKeys: seq<int>, otherKeys: seq<int>)
    requires Known(cs, elems)
    requires InOrder(Ids(pinned), Slots(cs, elems, true), pinnedKeys)
    requires InOrder(Ids(others), Slots(cs, elems, false), otherKeys)
    ensures IsSorted(Ids(pinned + others), cs, elems)
  {
  }

  /** Both sorts, the pinned conversations first. */
  method SortBoth(cs: seq<Conversation>, elems: Elems, unread: map<string, int>,
                  pinnedSlots: map<int, string>, otherSlots: map<int, string>) returns (list: seq<ConversationElem>)
    requires Known(cs, elems)
    requires pinnedSlots == Slots(cs, elems, true) && otherSlots == Slots(cs, elems, false)
    modifies elems.Values
    ensures IsSorted(Ids(list), cs, elems)
    ensures forall e | e in list :: e in elems.Values
    ensures forall e | e in elems.Values ::
              && e.unreadCount == (if e in list then Count(unread, e.conversationID) else old(e.unreadCount))
              && e.recvMsgOpt == old(e.recvMsgOpt) && e.isPinned == old(e.isPinned)
  {
    SlotsKnown(cs, elems, true);
    SlotsKnown(cs, elems, false);
    var pinned, pinnedKeys := ConversationSort(pinnedSlots, unread, elems);
    var others, otherKeys := ConversationSort(otherSlots, unread, elems);
    list := pinned + others;
    PartsMakeList(pinned, others, cs, elems, pinnedKeys, otherKeys);
  }

  /** What a list built this way adds up to. */
  lemma ListAddsUp(list: seq<ConversationElem>, cs: seq<Conversation>, elems: Elems,
                   unread: map<string, int>, total: int)
    requires Known(cs, elems) && IsSorted(Ids(list), cs, elems) && IsTotal(total, unread.Keys, unread)
    requires forall e | e in list :: e.unreadCount == Count(unread, e.conversationID)
    ensures DistinctTimes(cs, elems) && unread.Keys == SetOf(IdsOf(cs)) ==> SumUnread(list) == total
  {
    SumIsTotal(list, unread);
    if DistinctTimes(cs, elems) && unread.Keys == SetOf(IdsOf(cs)) {
      UnreadAddsUp(Ids(list), cs, elems, unread, total);
    }
  }

  /** GetSortedConversationList, before pagination; it fails without conversations. */
  method GetSortedConversationList(cs: seq<Conversation>, elems: Elems,
                                   maxSeqs: map<string, int>, hasReadSeqs: map<string, int>)
    returns (found: bool, list: seq<ConversationElem>, unreadTotal: int, ghost order: seq<string>, ghost sums: seq<int>)
    requires Known(cs, elems)
    modifies elems.Values
    ensures found <==> cs != []
    ensures found ==> IsSorted(Ids(list), cs, elems)
    ensures forall e | e in list :: e in elems.Values
    ensures found ==> forall e | e in elems.Values ::
              var id := e.conversationID;
              e.unreadCount == (if e !in list then old(e.unreadCount)
                                else if id !in maxSeqs then 0
                                else maxSeqs[id] - if id in hasReadSeqs then hasReadSeqs[id] else 0)
    ensures found ==> forall i | 0 <= i < |cs| ::
              var e := elems[cs[i].conversationID];
              e.recvMsgOpt == cs[i].recvMsgOpt && e.isPinned == (cs[i].isPinned || old(e.isPinned))
    ensures found ==> forall e | e in elems.Values && (forall c | c in cs :: c.conversationID != e.conversationID) ::
              e.recvMsgOpt == old(e.recvMsgOpt) && e.isPinned == old(e.isPinned)
    ensures found ==>
              && NoDup(order) && (forall id :: id in order <==> id in maxSeqs)
              && |sums| == |order| + 1 && sums[0] == 0 && sums[|order|] == unreadTotal
              && forall i | 0 <= i < |order| ::
                   var id := order[i];
                   sums[i + 1] == sums[i] + maxSeqs[id] - if id in hasReadSeqs then hasReadSeqs[id] else 0
    ensures found && DistinctTimes(cs, elems) && maxSeqs.Keys == SetOf(IdsOf(cs)) ==> SumUnread(list) == unreadTotal
    ensures !found ==> list == [] && unreadTotal == 0 && forall e | e in elems.Values :: unchanged(e)
  {
    if |cs| == 0 {
      return false, [], 0, [], [];
    }
    var unread;
    unreadTotal, unread, order, sums := CountUnread(maxSeqs, hasReadSeqs);
    var pinnedSlots, otherSlots := FillTables(cs, elems);
    list := SortBoth(cs, elems, unread, pinnedSlots, otherSlots);
    SummedIsTotal(unreadTotal, order, unread);
    ListAddsUp(list, cs, elems, unread, unreadTotal);
    assert forall id :: id in order <==> id in SetOf(order);
    found := true;
  }
}
