/** How far a user has read a conversation: requests that mark messages, mark a
    whole conversation, or report positions, in any order. */
module HasRead {
  import opened Messages
  import opened Sequences

  /** A user and a conversation. */
  type Key = (string, string)

  /** Messages of a single chat marked as read. */
  datatype Mark = Mark(key: Key, seqs: seq<int>)

  /** The stored positions, and every mark ever made. */
  datatype Positions = Positions(hasRead: map<Key, int>, marks: seq<Mark>)

  /** The requests, with what the service looks up for them: the newest position of
      the conversation and the conversation's type, None if there is none. */
  datatype Request =
    | MarkMsgs(key: Key, seqs: seq<int>, maxSeq: Option<int>, conversationType: Option<int>)
    | MarkConversation(key: Key, hasReadSeq: int, seqs: seq<int>, conversationType: Option<int>)
    | Report(positions: seq<(Key, int)>)

  /** Nothing stored reads as 0. */
  function Read(hasRead: map<Key, int>, k: Key): int {
    if k in hasRead then hasRead[k] else 0
  }

  function Raised(hasRead: map<Key, int>, k: Key, seq': int): map<Key, int> {
    if seq' > Read(hasRead, k) then hasRead[k := seq'] else hasRead
  }

  predicate Granted(r: Request) {
    match r
    case MarkMsgs(_, seqs, maxSeq, conversationType) =>
      seqs != [] && maxSeq.Some? && seqs[|seqs| - 1] <= maxSeq.value && conversationType.Some?
    case MarkConversation(_, _, _, conversationType) => conversationType.Some?
    case Report(_) => true
  }

  /** The types whose position a conversation mark moves. */
  predicate Moves(conversationType: Option<int>) {
    conversationType in {Some(SINGLE_CHAT), Some(SUPER_GROUP_CHAT), Some(NOTIFICATION_CHAT)}
  }

  /** What is still to be marked of a single chat: everything after the old
      position up to the new one, then what is named besides. */
  function ToMark(hasReadSeq: int, upTo: int, named: seq<int>): seq<int> {
    if named == [] then Range(hasReadSeq, upTo)
    else
      var (before, last) := (ToMark(hasReadSeq, upTo, named[..|named| - 1]), named[|named| - 1]);
      if last in before then before else before + [last]
  }

  function Range(after: int, upTo: int): seq<int>
    decreases upTo - after
  {
    if upTo <= after then [] else Range(after, upTo - 1) + [upTo]
  }

  function ReportAll(hasRead: map<Key, int>, positions: seq<(Key, int)>): map<Key, int> {
    if positions == [] then hasRead
    else
      var last := positions[|positions| - 1];
      Raised(ReportAll(hasRead, positions[..|positions| - 1]), last.0, last.1)
  }

  function Apply(p: Positions, r: Request): Positions
    requires Granted(r)
  {
    match r
    case MarkMsgs(k, seqs, _, _) =>
      Positions(Raised(p.hasRead, k, seqs[|seqs| - 1]), p.marks + [Mark(k, seqs)])
    case MarkConversation(k, upTo, named, conversationType) =>
      var seqs := ToMark(Read(p.hasRead, k), upTo, named);
      Positions(if Moves(conversationType) then Raised(p.hasRead, k, upTo) else p.hasRead,
                if conversationType == Some(SINGLE_CHAT) && seqs != [] then p.marks + [Mark(k, seqs)] else p.marks)
    case Report(positions) => p.(hasRead := ReportAll(p.hasRead, positions))
  }

  // ------------------------------------------------------ what gets marked

  lemma {:induction false} RangeAt(after: int, upTo: int)
    ensures |Range(after, upTo)| == (if after < upTo then upTo - after else 0)
    ensures forall j | 0 <= j < |Range(after, upTo)| :: Range(after, upTo)[j] == after + 1 + j
    decreases upTo - after
  {
    if upTo > after {
      RangeAt(after, upTo - 1);
    }
  }

  lemma RangeExact(after: int, upTo: int)
    ensures NoDup(Range(after, upTo)) && forall x :: x in Range(after, upTo) <==> after < x <= upTo
    ensures |Range(after, upTo)| == (if after < upTo then upTo - after else 0)
    ensures forall j | 0 <= j < upTo - after :: Range(after, upTo)[j] == after + 1 + j
  {
    RangeAt(after, upTo);
    forall x | after < x <= upTo ensures x in Range(after, upTo) {
      assert Range(after, upTo)[x - after - 1] == x;
    }
  }

  /** Exactly the positions passed and the positions named are marked, each once, and
      those passed in order and first. */
  lemma {:induction false} ToMarkExact(hasReadSeq: int, upTo: int, named: seq<int>)
    ensures NoDup(ToMark(hasReadSeq, upTo, named))
    ensures forall x :: x in ToMark(hasReadSeq, upTo, named) <==> hasReadSeq < x <= upTo || x in named
    ensures var seqs := ToMark(hasReadSeq, upTo, named);
            |seqs| >= upTo - hasReadSeq && forall j | 0 <= j < upTo - hasReadSeq :: seqs[j] == hasReadSeq + 1 + j
  {
    if named == [] {
      RangeExact(hasReadSeq, upTo);
    } else {
      var n := |named| - 1;
      ToMarkExact(hasReadSeq, upTo, named[..n]);
      assert forall x | x in named :: x in named[..n] || x == named[n];
      assert named[n] in named && forall x | x in named[..n] :: x in named;
    }
  }

  // ----------------------------------------------------------- whole runs

  function Serve(p: Positions, r: Request): Positions {
    if Granted(r) then Apply(p, r) else p
  }

  function Run(p: Positions, rs: seq<Request>): Positions {
    if rs == [] then p else Serve(Run(p, rs[..|rs| - 1]), rs[|rs| - 1])
  }

  /** Marking messages: granted exactly for some messages of a known conversation, the
      last of them not beyond its newest position; then these and no others are
      marked, and the position is raised to the last of them. */
  lemma MsgsServed(p: Positions, k: Key, seqs: seq<int>, maxSeq: Option<int>, conversationType: Option<int>)
    ensures var p' := Serve(p, MarkMsgs(k, seqs, maxSeq, conversationType));
            if seqs == [] || maxSeq.None? || seqs[|seqs| - 1] > maxSeq.value || conversationType.None? then p' == p
            else
              var last := seqs[|seqs| - 1];
              && p'.marks == p.marks + [Mark(k, seqs)]
              && p'.hasRead == if last > (if k in p.hasRead then p.hasRead[k] else 0)
                               then p.hasRead[k := last] else p.hasRead
  {
  }

  /** Marking a conversation: in a single chat what was passed and what is named is
      marked, at once, if there is any of it, and in other conversations nothing. The
      position of single chats, groups and notifications is raised. */
  lemma ConversationServed(p: Positions, k: Key, upTo: int, named: seq<int>, conversationType: Option<int>)
    ensures var p' := Serve(p, MarkConversation(k, upTo, named, conversationType));
            var (n, read) := (|p.marks|, if k in p.hasRead then p.hasRead[k] else 0);
            && (if conversationType == Some(1) && (read < upTo || named != [])
                then |p'.marks| == n + 1 && p'.marks[..n] == p.marks && p'.marks[n].key == k
                     && NoDup(p'.marks[n].seqs)
                     && (forall x :: x in p'.marks[n].seqs <==> read < x <= upTo || x in named)
                     && |p'.marks[n].seqs| >= upTo - read
                     && forall j | 0 <= j < upTo - read :: p'.marks[n].seqs[j] == read + 1 + j
                else p'.marks == p.marks)
            && p'.hasRead == if conversationType in {Some(1), Some(3), Some(4)} && upTo > read
                             then p.hasRead[k := upTo] else p.hasRead
  {
    var read := Read(p.hasRead, k);
    var seqs := ToMark(read, upTo, named);
    ToMarkExact(read, upTo, named);
    assert seqs == [] ==> forall x :: x !in seqs;
    assert named != [] ==> named[0] in named;
    assert read < upTo ==> upTo in seqs;
  }

  /** Reporting positions: every position is raised to the largest one reported, and
      nothing is marked. */
  lemma ReportServed(p: Positions, positions: seq<(Key, int)>, k: Key)
    ensures var p' := Serve(p, Report(positions));
            var (read, read') := (if k in p.hasRead then p.hasRead[k] else 0,
                                  if k in p'.hasRead then p'.hasRead[k] else 0);
            && p'.marks == p.marks
            && read <= read' && (forall y | (k, y) in positions :: y <= read')
            && (read' == read || (k, read') in positions)
  {
    ReportIsMax(p.hasRead, positions, k);
  }

  /** Does a request ask for position x of k? */
  predicate AsksFor(r: Request, k: Key, x: int) {
    Granted(r) &&
    match r
    case MarkMsgs(key, seqs, _, _) => key == k && x == seqs[|seqs| - 1]
    case MarkConversation(key, upTo, _, conversationType) => key == k && Moves(conversationType) && x == upTo
    case Report(positions) => (k, x) in positions
  }

  ghost predicate IsMax(x: int, initial: int, rs: seq<Request>, k: Key) {
    && initial <= x && (forall r, y | r in rs && AsksFor(r, k, y) :: y <= x)
    && (x == initial || exists r | r in rs :: AsksFor(r, k, x))
  }

  lemma {:induction false} ReportIsMax(hasRead: map<Key, int>, positions: seq<(Key, int)>, k: Key)
    ensures var x := Read(ReportAll(hasRead, positions), k);
            && Read(hasRead, k) <= x && (forall y | (k, y) in positions :: y <= x)
            && (x == Read(hasRead, k) || (k, x) in positions)
  {
    if positions != [] {
      var n := |positions| - 1;
      ReportIsMax(hasRead, positions[..n], k);
      assert forall q | q in positions :: q in positions[..n] || q == positions[n];
      assert positions[n] in positions && forall q | q in positions[..n] :: q in positions;
    }
  }

  lemma ServeIsMax(p: Positions, r: Request, k: Key)
    ensures var x := Read(Serve(p, r).hasRead, k);
            && Read(p.hasRead, k) <= x && (forall y | AsksFor(r, k, y) :: y <= x)
            && (x == Read(p.hasRead, k) || AsksFor(r, k, x))
  {
    if r.Report? {
      ReportIsMax(p.hasRead, r.positions, k);
    }
  }

  /** After any requests the stored position is the largest of the initial one and
      all those asked for by granted requests. */
  lemma {:induction false} RunIsMax(p: Positions, rs: seq<Request>, k: Key)
    ensures IsMax(Read(Run(p, rs).hasRead, k), Read(p.hasRead, k), rs, k)
  {
    if rs != [] {
      var n := |rs| - 1;
      RunIsMax(p, rs[..n], k);
      ServeIsMax(Run(p, rs[..n]), rs[n], k);
      assert forall r | r in rs :: r in rs[..n] || r == rs[n];
      assert rs[n] in rs && forall r | r in rs[..n] :: r in rs;
    }
  }

  /** The order of the requests does not matter, nor how often each is made. */
  lemma OrderFree(p: Positions, rs: seq<Request>, rs': seq<Request>, k: Key)
    requires forall r :: r in rs <==> r in rs'
    ensures Read(Run(p, rs).hasRead, k) == Read(Run(p, rs').hasRead, k)
  {
    RunIsMax(p, rs, k);
    RunIsMax(p, rs', k);
  }

  // -------------------------------------------------------------- service

  class MsgServer {
    var hasRead: map<Key, int>
    ghost var marks: seq<Mark>

    ghost function View(): Positions
      reads this
    {
      Positions(hasRead, marks)
    }

    constructor ()
      ensures View() == Positions(map[], [])
    {
      hasRead, marks := map[], [];
    }

    method MarkMsgsAsRead(key: Key, seqs: seq<int>, maxSeq: Option<int>, conversationType: Option<int>)
      returns (ok: bool)
      modifies this
      ensures ok <==> Granted(MarkMsgs(key, seqs, maxSeq, conversationType))
      ensures View() == Serve(old(View()), MarkMsgs(key, seqs, maxSeq, conversationType))
    {
      if |seqs| < 1 || maxSeq.None? {
        return false;
      }
      var hasReadSeq := seqs[|seqs| - 1];
      if hasReadSeq > maxSeq.value || conversationType.None? {
        return false;
      }
      marks := marks + [Mark(key, seqs)];
      var currentHasReadSeq := if key in hasRead then hasRead[key] else 0;
      if hasReadSeq > currentHasReadSeq {
        hasRead := hasRead[key := hasReadSeq];
      }
      return true;
    }

    /** The two loops that collect what is to be marked. */
    method Collect(hasReadSeq: int, upTo: int, named: seq<int>) returns (seqs: seq<int>)
      ensures seqs == ToMark(hasReadSeq, upTo, named)
    {
      seqs := [];
      var i := hasReadSeq + 1;
      while i <= upTo
        invariant i == hasReadSeq + 1 || i <= upTo + 1
        invariant hasReadSeq < i && seqs == Range(hasReadSeq, i - 1)
      {
        seqs := seqs + [i];
        i := i + 1;
      }
      assert upTo <= hasReadSeq ==> Range(hasReadSeq, upTo) == [];
      for j := 0 to |named|
        invariant seqs == ToMark(hasReadSeq, upTo, named[..j])
      {
        assert named[..j + 1][..j] == named[..j];
        if named[j] !in seqs {
          seqs := seqs + [named[j]];
        }
      }
      assert named[..|named|] == named;
    }

    method MarkConversationAsRead(key: Key, upTo: int, named: seq<int>, conversationType: Option<int>)
      returns (ok: bool)
      modifies this
      ensures ok <==> Granted(MarkConversation(key, upTo, named, conversationType))
      ensures View() == Serve(old(View()), MarkConversation(key, upTo, named, conversationType))
    {
      if conversationType.None? {
        return false;
      }
      var hasReadSeq := if key in hasRead then hasRead[key] else 0;
      if conversationType.value == SINGLE_CHAT {
        var seqs := Collect(hasReadSeq, upTo, named);
        if |seqs| > 0 {
          marks := marks + [Mark(key, seqs)];
        }
        if upTo > hasReadSeq {
          hasRead := hasRead[key := upTo];
        }
      } else if conversationType.value == SUPER_GROUP_CHAT || conversationType.value == NOTIFICATION_CHAT {
        if upTo > hasReadSeq {
          hasRead := hasRead[key := upTo];
        }
      }
      return true;
    }

    method ReadSeqs(positions: seq<(Key, int)>)
      modifies this
      ensures View() == Serve(old(View()), Report(positions))
    {
      for i := 0 to |positions|
        invariant marks == old(marks) && hasRead == ReportAll(old(hasRead), positions[..i])
      {
        assert positions[..i + 1][..i] == positions[..i];
        var (key, msgSeq) := positions[i];
        var hasReadSeq := if key in hasRead then hasRead[key] else 0;
        if msgSeq > hasReadSeq {
          hasRead := hasRead[key := msgSeq];
        }
      }
      assert positions[..|positions|] == positions;
    }
  }
}
