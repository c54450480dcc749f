/** What becomes of the owner of a group, request by request and over whole runs. */
module GroupOwners {
  import opened Messages
  import opened Groups
  import opened Sequences

  // ------------------------------------------------------- single requests

  ghost predicate SameOwners(s: State, s': State) {
    s'.groups == s.groups && Known(s') && forall g, u :: IsOwner(s', g, u) <==> IsOwner(s, g, u)
  }

  lemma InsertOrdinary(s: State, s': State, rows: seq<Row>, g: string)
    requires Known(s) && Insertable(s.members, rows) && g in s.groups
    requires forall i | 0 <= i < |rows| :: rows[i].role != OWNER && rows[i].key.0 == g
    requires s'.groups == s.groups && s'.members == Inserted(s.members, rows)
    ensures SameOwners(s, s')
  {
    forall k: Key
      ensures k in s'.members ==> k.0 in s.groups
      ensures (k in s'.members && s'.members[k] == OWNER) <==> (k in s.members && s.members[k] == OWNER)
    {
      InsertedExact(s.members, rows, k);
    }
  }

  /** A new group has the owner named, and no other; nothing changes elsewhere. */
  lemma CreateOwners(s: State, op: Op, r: Request, g: string, u: string)
    requires r.Create? && Known(s) && Granted(s, op, r)
    ensures var (s', id) := (Apply(s, op, r), NewID(s.groups, r.info.groupID, r.candidates).value);
            && id !in s.groups && s'.groups.Keys == s.groups.Keys + {id}
            && (IsOwner(s', g, u) <==> if g == id then u == r.owner else IsOwner(s, g, u))
            && (IsMember(s', g, u) ==> g in s'.groups)
  {
    var id := NewID(s.groups, r.info.groupID, r.candidates).value;
    NewIDFree(s.groups, r.info.groupID, r.candidates);
    var rows := CreateRows(id, r.owner, r.admins, r.members);
    assert rows[0] == Row((id, r.owner), OWNER);
    assert forall i | 0 < i < |rows| :: rows[i].role != OWNER && rows[i].key.0 == id;
    InsertedExact(s.members, rows, (g, u));
  }

  lemma {:induction false} NewIDFree(groups: map<string, Group>, groupID: string, candidates: seq<string>)
    ensures var id := NewID(groups, groupID, candidates);
            id.Some? ==> id.value !in groups && id.value in [groupID] + candidates
  {
    if groupID == "" && candidates != [] && candidates[0] in groups {
      NewIDFree(groups, groupID, candidates[1..]);
    }
  }

  /** Setting roles makes nobody an owner, and ends the ownership of those whose
      role it sets. */
  lemma {:induction false} SetRolesOwners(members: Members, items: seq<Item>, k: Key)
    requires forall i | i in items :: ItemKey(i) in members && (i.roleLevel.Some? ==> i.roleLevel.value != OWNER)
    ensures SetRoles(members, items).Keys == members.Keys
    ensures k in members ==>
              (SetRoles(members, items)[k] == OWNER <==>
               members[k] == OWNER && forall i | i in items && ItemKey(i) == k :: i.roleLevel.None?)
  {
    if items != [] {
      var n := |items| - 1;
      assert items[n] in items && forall i | i in items :: i in items[..n] || i == items[n];
      assert forall i | i in items[..n] :: i in items;
      SetRolesOwners(members, items[..n], k);
    }
  }

  lemma SetInfoOwners(s: State, op: Op, r: Request, g: string, u: string)
    requires r.SetInfo? && Known(s) && Granted(s, op, r)
    ensures IsOwner(Apply(s, op, r), g, u) <==>
            IsOwner(s, g, u) && forall i | i in r.items && ItemKey(i) == (g, u) :: i.roleLevel.None?
    ensures Known(Apply(s, op, r)) && Apply(s, op, r).groups == s.groups
  {
    SetRolesOwners(s.members, r.items, (g, u));
  }

  lemma TransferOwners(s: State, op: Op, r: Request, g: string, u: string)
    requires r.Transfer? && Known(s) && Granted(s, op, r)
    ensures IsOwner(Apply(s, op, r), g, u) <==>
            if g == r.groupID && u == r.newOwner then true
            else if g == r.groupID && u == r.oldOwner then IsOwner(s, g, r.newOwner)
            else IsOwner(s, g, u)
    ensures Known(Apply(s, op, r)) && Apply(s, op, r).groups == s.groups
  {
  }

  /** The requests that touch no owner. */
  lemma OthersKeepOwners(s: State, op: Op, r: Request)
    requires (r.Invite? || r.Join? || r.Respond? || r.Quit?) && Known(s) && Granted(s, op, r)
    ensures SameOwners(s, Apply(s, op, r))
  {
    if r.Invite? && !Asks(s, op, r) {
      InsertOrdinary(s, Apply(s, op, r), RowsOf(r.groupID, r.invited, ORDINARY), r.groupID);
    }
  }

  lemma SameOwnersKeep(s: State, s': State)
    requires SameOwners(s, s') && Known(s)
    ensures EachOneOwner(s) ==> EachOneOwner(s')
    ensures EachAtMostOneOwner(s) ==> EachAtMostOneOwner(s')
  {
  }

  // ------------------------------------------------------------ one owner

  lemma CreateKeeps(s: State, op: Op, r: Request)
    requires r.Create? && Known(s) && Granted(s, op, r)
    ensures EachOneOwner(s) ==> EachOneOwner(Apply(s, op, r))
    ensures EachAtMostOneOwner(s) ==> EachAtMostOneOwner(Apply(s, op, r))
  {
    var (s', id) := (Apply(s, op, r), NewID(s.groups, r.info.groupID, r.candidates).value);
    forall g, u ensures IsOwner(s', g, u) <==> if g == id then u == r.owner else IsOwner(s, g, u) {
      CreateOwners(s, op, r, g, u);
    }
    forall k | k in s'.members ensures k.0 in s'.groups {
      CreateOwners(s, op, r, k.0, k.1);
      assert IsMember(s', k.0, k.1);
    }
    assert IsOwner(s', id, r.owner);
    if EachOneOwner(s) {
      forall g | g in s'.groups ensures OneOwner(s', g) {
        if g != id {
          assert OneOwner(s, g);
          var u :| IsOwner(s, g, u);
          assert IsOwner(s', g, u);
        }
      }
    }
  }

  lemma KickIff(s: State, op: Op, r: Request)
    requires r.Kick? && EachOneOwner(s) && Granted(s, op, r)
    ensures EachOneOwner(Apply(s, op, r)) <==> SparesOwner(s, r)
  {
    var s' := Apply(s, op, r);
    assert forall g, u :: IsOwner(s', g, u) <==> IsOwner(s, g, u) && !(g == r.groupID && u in r.kicked);
    forall g | g in s.groups && (g != r.groupID || SparesOwner(s, r)) ensures OneOwner(s', g) {
      assert OneOwner(s, g);
      var u :| IsOwner(s, g, u);
      assert IsOwner(s', g, u);
    }
    assert OneOwner(s, r.groupID);
  }

  lemma TransferIff(s: State, op: Op, r: Request)
    requires r.Transfer? && EachOneOwner(s) && Granted(s, op, r)
    ensures EachOneOwner(Apply(s, op, r)) <==> SparesOwner(s, r)
  {
    var s' := Apply(s, op, r);
    forall g, u ensures IsOwner(s', g, u) <==> if g == r.groupID && u == r.newOwner then true
                                               else if g == r.groupID && u == r.oldOwner then IsOwner(s, g, r.newOwner)
                                               else IsOwner(s, g, u) {
      TransferOwners(s, op, r, g, u);
    }
    forall g | g in s.groups && (g != r.groupID || SparesOwner(s, r)) ensures OneOwner(s', g) {
      assert OneOwner(s, g);
      var u :| IsOwner(s, g, u);
      assert IsOwner(s', g, if g == r.groupID then r.newOwner else u);
    }
    assert OneOwner(s, r.groupID);
    var o :| IsOwner(s, r.groupID, o);
    assert IsOwner(s', r.groupID, r.newOwner);
    assert o != r.oldOwner ==> IsOwner(s', r.groupID, o);
    assert o == r.newOwner ==> IsOwner(s', r.groupID, r.oldOwner);
  }

  lemma SetInfoIff(s: State, op: Op, r: Request)
    requires r.SetInfo? && EachOneOwner(s) && Granted(s, op, r)
    ensures EachOneOwner(Apply(s, op, r)) <==> SparesOwner(s, r)
  {
    var s' := Apply(s, op, r);
    SetInfoOwners(s, op, r, "", "");
    forall g, u
      ensures IsOwner(s', g, u) <==>
              IsOwner(s, g, u) && forall i | i in r.items && ItemKey(i) == (g, u) :: i.roleLevel.None?
    {
      SetInfoOwners(s, op, r, g, u);
    }
    if SparesOwner(s, r) {
      forall g | g in s.groups ensures OneOwner(s', g) {
        assert OneOwner(s, g);
        var u :| IsOwner(s, g, u);
        assert IsOwner(s', g, u);
      }
    } else {
      var i :| i in r.items && i.roleLevel.Some? && IsOwner(s, i.groupID, i.userID);
      assert OneOwner(s, i.groupID) && ItemKey(i) == (i.groupID, i.userID);
      assert forall u :: !IsOwner(s', i.groupID, u);
    }
  }

  /** A granted request leaves every group with exactly one owner exactly if it
      spares the owner. */
  lemma OneOwnerIff(s: State, op: Op, r: Request)
    requires EachOneOwner(s) && Granted(s, op, r)
    ensures EachOneOwner(Apply(s, op, r)) <==> SparesOwner(s, r)
  {
    match r
    case Create(_, _, _, _, _) => CreateKeeps(s, op, r);
    case Kick(_, _) => KickIff(s, op, r);
    case Transfer(_, _, _) => TransferIff(s, op, r);
    case SetInfo(_) => SetInfoIff(s, op, r);
    case _ =>
      OthersKeepOwners(s, op, r);
      SameOwnersKeep(s, Apply(s, op, r));
  }

  lemma TransferNames(s: State, op: Op, r: Request)
    requires r.Transfer? && EachAtMostOneOwner(s) && Granted(s, op, r)
    ensures EachAtMostOneOwner(Apply(s, op, r)) <==> NamesOwner(s, r)
  {
    var s' := Apply(s, op, r);
    forall g, u ensures IsOwner(s', g, u) <==> if g == r.groupID && u == r.newOwner then true
                                               else if g == r.groupID && u == r.oldOwner then IsOwner(s, g, r.newOwner)
                                               else IsOwner(s, g, u) {
      TransferOwners(s, op, r, g, u);
    }
    if !NamesOwner(s, r) {
      var o :| IsOwner(s, r.groupID, o);
      assert IsOwner(s', r.groupID, r.newOwner);
      assert IsOwner(s', r.groupID, if o == r.newOwner then r.oldOwner else o);
    }
  }

  lemma RemovingKeepsAtMost(s: State, s': State)
    requires EachAtMostOneOwner(s) && s'.groups == s.groups && Known(s')
    requires forall g, u | IsOwner(s', g, u) :: IsOwner(s, g, u)
    ensures EachAtMostOneOwner(s')
  {
  }

  /** A granted request gives no group a second owner exactly if a transfer names
      the owner, if there is one. */
  lemma AtMostOneOwnerIff(s: State, op: Op, r: Request)
    requires EachAtMostOneOwner(s) && Granted(s, op, r)
    ensures EachAtMostOneOwner(Apply(s, op, r)) <==> NamesOwner(s, r)
  {
    match r
    case Create(_, _, _, _, _) => CreateKeeps(s, op, r);
    case Kick(_, _) => RemovingKeepsAtMost(s, Apply(s, op, r));
    case Transfer(_, _, _) => TransferNames(s, op, r);
    case SetInfo(_) =>
      SetInfoOwners(s, op, r, "", "");
      forall g, u | IsOwner(Apply(s, op, r), g, u) ensures IsOwner(s, g, u) {
        SetInfoOwners(s, op, r, g, u);
      }
      RemovingKeepsAtMost(s, Apply(s, op, r));
    case _ =>
      OthersKeepOwners(s, op, r);
      SameOwnersKeep(s, Apply(s, op, r));
  }

  /** Without the rights of a manager only the owner itself can end its ownership:
      by a transfer, which names it, or by setting its own role. */
  lemma OnlyTheOwner(s: State, op: Op, r: Request)
    requires EachOneOwner(s) && Granted(s, op, r) && !op.manager
    ensures NamesOwner(s, r)
    ensures !SparesOwner(s, r) ==>
              r.SetInfo? && exists i | i in r.items :: i.userID == op.userID && IsOwner(s, i.groupID, op.userID)
  {
    if r.Kick? {
      assert OneOwner(s, r.groupID);
      assert IsOwner(s, r.groupID, op.userID) ==> forall u | u in r.kicked :: !IsOwner(s, r.groupID, u);
    } else if r.SetInfo? && !SparesOwner(s, r) {
      var i :| i in r.items && i.roleLevel.Some? && IsOwner(s, i.groupID, i.userID);
      TargetsExact(r.items, i.groupID, i.userID);
      assert ItemKey(i) == (i.groupID, i.userID);
      ChangerIsOwner(s, op, i.groupID, Targets(r.items, i.groupID), i.userID);
    }
  }

  lemma ChangerIsOwner(s: State, op: Op, g: string, targets: seq<string>, u: string)
    requires OneOwner(s, g) && MayChange(s, op, g, targets) && u in targets && IsOwner(s, g, u)
    ensures u == op.userID
  {
    if HasRole(s, g, op.userID, OWNER) {
      assert IsOwner(s, g, op.userID);
    }
  }

  // ------------------------------------------------------------- witnesses

  const MANAGER := Op("m", true)

  /** A group g of the owner o and the members a and b. */
  function Sample(): State {
    State({"o", "a", "b", "m"}, map["g" := Group(0, DIRECTLY)],
          map[("g", "o") := OWNER, ("g", "a") := ORDINARY, ("g", "b") := ORDINARY], map[])
  }

  lemma SampleOwner()
    ensures EachOneOwner(Sample()) && forall g, u :: IsOwner(Sample(), g, u) <==> g == "g" && u == "o"
  {
    assert IsOwner(Sample(), "g", "o");
  }

  /** A manager's transfer that does not name the owner leaves two. */
  lemma TwoOwners()
    ensures var (s, r) := (Sample(), Transfer("g", "a", "b"));
            && EachOneOwner(s) && Granted(s, MANAGER, r) && !NamesOwner(s, r)
            && var s' := Apply(s, MANAGER, r);
            IsOwner(s', "g", "o") && IsOwner(s', "g", "b") && !EachAtMostOneOwner(s')
  {
    SampleOwner();
    assert IsOwner(Sample(), "g", "o");
    AtMostOneOwnerIff(Sample(), MANAGER, Transfer("g", "a", "b"));
  }

  /** A manager's kick of the owner leaves none. */
  lemma KickedOwner(u: string)
    ensures var (s, r) := (Sample(), Kick("g", ["o"]));
            EachOneOwner(s) && Granted(s, MANAGER, r) && !IsOwner(Apply(s, MANAGER, r), "g", u)
  {
    SampleOwner();
  }

  /** So does the owner by setting its own role, without a manager's rights. */
  lemma OwnerStepsDown(u: string)
    ensures var (s, op, r) := (Sample(), Op("o", false), SetInfo([Item("g", "o", Some(ORDINARY))]));
            EachOneOwner(s) && Granted(s, op, r) && !IsOwner(Apply(s, op, r), "g", u)
  {
    var items := [Item("g", "o", Some(ORDINARY))];
    SampleOwner();
    assert items[..0] == [];
    assert Targets(items, "g") == ["o"];
    assert Granted(Sample(), Op("o", false), SetInfo(items));
    SetInfoOwners(Sample(), Op("o", false), SetInfo(items), "g", u);
    assert items[0] in items && ItemKey(items[0]) == ("g", "o");
  }

  // ----------------------------------------------------------- whole runs

  function Serve(s: State, op: Op, r: Request): State {
    if Granted(s, op, r) then Apply(s, op, r) else s
  }

  function Run(s: State, reqs: seq<(Op, Request)>): State
    decreases |reqs|
  {
    if reqs == [] then s else Run(Serve(s, reqs[0].0, reqs[0].1), reqs[1..])
  }

  /** Every granted request of the run spares the owner. */
  predicate AllSpare(s: State, reqs: seq<(Op, Request)>)
    decreases |reqs|
  {
    reqs == [] ||
    (&& (Granted(s, reqs[0].0, reqs[0].1) ==> SparesOwner(s, reqs[0].1))
     && AllSpare(Serve(s, reqs[0].0, reqs[0].1), reqs[1..]))
  }

  /** Every granted transfer by a manager names the owner, if there is one. */
  ghost predicate ManagersName(s: State, reqs: seq<(Op, Request)>)
    decreases |reqs|
  {
    reqs == [] ||
    (&& (Granted(s, reqs[0].0, reqs[0].1) && reqs[0].0.manager ==> NamesOwner(s, reqs[0].1))
     && ManagersName(Serve(s, reqs[0].0, reqs[0].1), reqs[1..]))
  }

  /** In every run whose granted requests spare the owners, every group has exactly
      one owner throughout. */
  lemma {:induction false} AlwaysOneOwner(s: State, reqs: seq<(Op, Request)>)
    requires EachOneOwner(s) && AllSpare(s, reqs)
    ensures EachOneOwner(Run(s, reqs))
    decreases |reqs|
  {
    if reqs != [] {
      if Granted(s, reqs[0].0, reqs[0].1) {
        OneOwnerIff(s, reqs[0].0, reqs[0].1);
      }
      AlwaysOneOwner(Serve(s, reqs[0].0, reqs[0].1), reqs[1..]);
    }
  }

  /** In every run in which managers' transfers name the owner no group ever has
      two, whatever everybody else asks for. */
  lemma {:induction false} NeverTwoOwners(s: State, reqs: seq<(Op, Request)>)
    requires EachAtMostOneOwner(s) && ManagersName(s, reqs)
    ensures EachAtMostOneOwner(Run(s, reqs))
    decreases |reqs|
  {
    if reqs != [] {
      if Granted(s, reqs[0].0, reqs[0].1) {
        AtMostOneOwnerIff(s, reqs[0].0, reqs[0].1);
      }
      NeverTwoOwners(Serve(s, reqs[0].0, reqs[0].1), reqs[1..]);
    }
  }

  // ------------------------------------------------- the batch role update

  lemma {:induction false} TargetsExact(items: seq<Item>, g: string, u: string)
    ensures u in Targets(items, g) <==> exists i | i in items :: ItemKey(i) == (g, u)
  {
    if items != [] {
      var n := |items| - 1;
      assert forall i | i in items :: i in items[..n] || i == items[n];
      assert items[n] in items && forall i | i in items[..n] :: i in items;
      TargetsExact(items[..n], g, u);
    }
  }

  lemma {:induction false} TargetsApart(items: seq<Item>, i: nat, j: nat)
    requires i < j < |items| && ItemKey(items[i]) == ItemKey(items[j])
    ensures !NoDup(Targets(items, items[j].groupID))
  {
    var (n, g) := (|items| - 1, items[j].groupID);
    var before := Targets(items[..n], g);
    if j < n {
      TargetsApart(items[..n], i, j);
      var a, b :| 0 <= a < b < |before| && before[a] == before[b];
      assert Targets(items, g)[a] == Targets(items, g)[b];
    } else {
      TargetsExact(items[..n], g, items[j].userID);
      assert items[i] in items[..n];
      var a :| 0 <= a < |before| && before[a] == items[j].userID;
      assert Targets(items, g)[a] == Targets(items, g)[|before|];
    }
  }

  lemma {:induction false} SetRolesExact(members: Members, items: seq<Item>, i: nat)
    requires i < |items| && forall a, b | 0 <= a < b < |items| :: ItemKey(items[a]) != ItemKey(items[b])
    requires items[i].roleLevel.Some?
    ensures ItemKey(items[i]) in SetRoles(members, items)
    ensures SetRoles(members, items)[ItemKey(items[i])] == items[i].roleLevel.value
  {
    if i < |items| - 1 {
      SetRolesExact(members, items[..|items| - 1], i);
    }
  }

  lemma ItemsApart(s: State, op: Op, r: Request)
    requires r.SetInfo? && Granted(s, op, r)
    ensures forall a, b | 0 <= a < b < |r.items| :: ItemKey(r.items[a]) != ItemKey(r.items[b])
  {
    forall a, b | 0 <= a < b < |r.items| ensures ItemKey(r.items[a]) != ItemKey(r.items[b]) {
      assert r.items[b] in r.items;
      if ItemKey(r.items[a]) == ItemKey(r.items[b]) {
        TargetsApart(r.items, a, b);
      }
    }
  }

  /** When the batch update goes through, its targets are distinct members, nobody
      is made an owner, an operator without a manager's rights is a member of every
      group concerned, and every role asked for is set. */
  lemma SetInfoSound(s: State, op: Op, r: Request, i: nat, j: nat)
    requires r.SetInfo? && Granted(s, op, r) && i < j < |r.items|
    ensures ItemKey(r.items[i]) != ItemKey(r.items[j])
    ensures IsMember(s, r.items[i].groupID, r.items[i].userID)
    ensures r.items[i].roleLevel != Some(OWNER)
    ensures !op.manager ==> IsMember(s, r.items[i].groupID, op.userID)
    ensures r.items[j].roleLevel.Some? ==>
              HasRole(Apply(s, op, r), r.items[j].groupID, r.items[j].userID, r.items[j].roleLevel.value)
  {
    assert r.items[i] in r.items && r.items[j] in r.items;
    ItemsApart(s, op, r);
    if r.items[j].roleLevel.Some? {
      SetRolesExact(s.members, r.items, j);
    }
  }

  // ------------------------------------------------------------ invitations

  /** What an extension field grants: the flags in it, if it can be read. */
  datatype Rights = Unreadable | Rights(anchor: bool, high: bool, operation: bool)

  function VerifyRights(ex: Rights): int {
    if ex.Unreadable? then 0
    else if ex.high then 3
    else if ex.operation then 2
    else if ex.anchor then 1
    else 0
  }

  /** The branch that asks for approval is never taken, and the inviter need not be
      a member: no extension field grants less than 0. */
  lemma InvitesJoinDirectly(s: State, op: Op, r: Request, ex: Rights, u: string)
    requires r.Invite? && r.auth == VerifyRights(ex) && Granted(s, op, r) && u in r.invited
    ensures HasRole(Apply(s, op, r), r.groupID, u, ORDINARY) && Apply(s, op, r).requests == s.requests
  {
    var i :| 0 <= i < |r.invited| && r.invited[i] == u;
    var rows := RowsOf(r.groupID, r.invited, ORDINARY);
    InsertedExact(s.members, rows, (r.groupID, u));
    assert rows[i].key == (r.groupID, u);
  }
}
