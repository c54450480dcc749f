/** What a granted request changes, field by field and member by member, with the
    roles by their numbers: 100 for an owner, 60 for an administrator, 20 for an
    ordinary member. And who may change whom. */
module GroupChanges {
  import opened Messages
  import opened Groups
  import opened GroupOwners
  import opened Sequences

  // --------------------------------------------------------------- changes

  lemma NewRows(members: Members, g: string, users: seq<string>, role: int, k: Key)
    requires Insertable(members, RowsOf(g, users, role))
    ensures var after := Inserted(members, RowsOf(g, users, role));
            && (k in after <==> k in members || (k.0 == g && k.1 in users))
            && (k in after ==> after[k] == if k in members then members[k] else role)
  {
    var rows := RowsOf(g, users, role);
    InsertedExact(members, rows, k);
    if k.0 == g && k.1 in users {
      var i :| 0 <= i < |users| && users[i] == k.1;
      assert rows[i].key == k;
    }
  }

  /** The ID of a new group is the one asked for, or the first free one tried. */
  lemma {:induction false} NewGroupID(groups: map<string, Group>, asked: string, tried: seq<string>)
    ensures var id := NewID(groups, asked, tried);
            && (asked != "" ==> id == if asked in groups then None else Some(asked))
            && (asked == "" ==> (id.None? <==> forall t | t in tried :: t in groups))
            && (asked == "" && id.Some? ==> exists i | 0 <= i < |tried| ::
                  tried[i] == id.value && tried[i] !in groups && forall j | 0 <= j < i :: tried[j] in groups)
  {
    if asked == "" && tried != [] && tried[0] in groups {
      NewGroupID(groups, asked, tried[1..]);
      var id := NewID(groups, asked, tried[1..]);
      assert forall t | t in tried :: t == tried[0] || t in tried[1..];
      assert forall t | t in tried[1..] :: t in tried;
      if id.Some? {
        var i :| && 0 <= i < |tried[1..]| && tried[1..][i] == id.value
                 && tried[1..][i] !in groups && forall j | 0 <= j < i :: tried[1..][j] in groups;
        assert tried[i + 1] == id.value && forall j | 0 < j < i + 1 :: tried[j] == tried[1..][j - 1];
      }
    }
  }

  /** Creating: a new group, open to all, of its owner, administrators and members;
      nothing else. */
  lemma CreateChanges(s: State, op: Op, r: Request, k: Key)
    requires r.Create? && Known(s) && Granted(s, op, r)
    ensures var (s', id) := (Apply(s, op, r), NewID(s.groups, r.info.groupID, r.candidates).value);
            && id !in s.groups && s'.groups == s.groups[id := Group(r.info.status, 2)]
            && s'.users == s.users && s'.requests == s.requests
            && (k in s'.members <==>
                k in s.members || (k.0 == id && (k.1 == r.owner || k.1 in r.admins || k.1 in r.members)))
            && (k in s'.members ==>
                  s'.members[k] == (if k.0 != id then s.members[k]
                                    else if k.1 == r.owner then 100 else if k.1 in r.admins then 60 else 20))
  {
    var id := NewID(s.groups, r.info.groupID, r.candidates).value;
    NewIDFree(s.groups, r.info.groupID, r.candidates);
    var rows := CreateRows(id, r.owner, r.admins, r.members);
    InsertedExact(s.members, rows, k);
    OneRole(op, r, k.1);
    forall role
      ensures Row(k, role) in rows <==>
              k.0 == id && ((role == 100 && k.1 == r.owner) || (role == 60 && k.1 in r.admins)
                            || (role == 20 && k.1 in r.members))
    {
      CreateRowsExact(id, r.owner, r.admins, r.members, Row(k, role));
    }
    assert forall i | 0 <= i < |rows| && rows[i].key == k :: Row(k, rows[i].role) in rows;
    if k.0 == id && (k.1 == r.owner || k.1 in r.admins || k.1 in r.members) {
      var role := if k.1 == r.owner then 100 else if k.1 in r.admins then 60 else 20;
      var i :| 0 <= i < |rows| && rows[i] == Row(k, role);
    }
  }

  lemma RowIn(g: string, users: seq<string>, role: int, row: Row)
    ensures row in RowsOf(g, users, role) <==> row.role == role && row.key.0 == g && row.key.1 in users
  {
    if row.role == role && row.key.0 == g && row.key.1 in users {
      var i :| 0 <= i < |users| && users[i] == row.key.1;
      assert RowsOf(g, users, role)[i] == row;
    }
  }

  lemma CreateRowsExact(id: string, owner: string, admins: seq<string>, members: seq<string>, row: Row)
    ensures row in CreateRows(id, owner, admins, members) <==>
            row.key.0 == id && ((row.role == 100 && row.key.1 == owner) || (row.role == 60 && row.key.1 in admins)
                                || (row.role == 20 && row.key.1 in members))
  {
    RowIn(id, admins, 60, row);
    RowIn(id, members, 20, row);
  }

  /** Nobody is named for two roles. */
  lemma OneRole(op: Op, r: Request, u: string)
    requires r.Create? && NoDup(Named(op, r.owner, r.admins, r.members))
    ensures u == r.owner ==> u !in r.admins && u !in r.members
    ensures !(u in r.admins && u in r.members)
  {
    var named := Named(op, r.owner, r.admins, r.members);
    var (m, a) := (|r.members|, |r.admins|);
    assert forall i | 0 <= i < m :: named[i] == r.members[i];
    assert forall i | 0 <= i < a :: named[m + i] == r.admins[i];
    assert named[m + a] == r.owner;
  }

  /** Inviting: all invited have requests that are not handled yet, if the group wants
      approval from somebody who may not give it; else all are ordinary members. */
  lemma InviteChanges(s: State, op: Op, r: Request, k: Key)
    requires r.Invite? && Granted(s, op, r)
    ensures var (s', g) := (Apply(s, op, r), r.groupID);
            var role := if (g, op.userID) in s.members then s.members[(g, op.userID)] else 0;
            var asks := s.groups[g].needVerification == 1 && r.auth < 0 && !op.manager && role != 100 && role != 60;
            && s'.users == s.users && s'.groups == s.groups
            && (asks ==>
                  && s'.members == s.members
                  && (k in s'.requests <==> k in s.requests || (k.0 == g && k.1 in r.invited))
                  && (k in s'.requests ==>
                        s'.requests[k] == if k.0 == g && k.1 in r.invited then 0 else s.requests[k]))
            && (!asks ==>
                  && s'.requests == s.requests
                  && (k in s'.members <==> k in s.members || (k.0 == g && k.1 in r.invited))
                  && (k in s'.members ==> s'.members[k] == if k in s.members then s.members[k] else 20)
                  && (k.0 == g && k.1 in r.invited ==> k !in s.members))
  {
    if Asks(s, op, r) {
      AskedExact(s.requests, r.groupID, r.invited, k);
    } else {
      NewRows(s.members, r.groupID, r.invited, ORDINARY, k);
      if k.0 == r.groupID && k.1 in r.invited {
        var i :| 0 <= i < |r.invited| && r.invited[i] == k.1;
        assert RowsOf(r.groupID, r.invited, ORDINARY)[i].key == k;
      }
    }
  }

  lemma {:induction false} AskedExact(requests: map<Key, int>, g: string, users: seq<string>, k: Key)
    ensures var after := Asked(requests, g, users);
            && (k in after <==> k in requests || (k.0 == g && k.1 in users))
            && (k in after ==> after[k] == if k.0 == g && k.1 in users then 0 else requests[k])
  {
    if users != [] {
      var n := |users| - 1;
      AskedExact(requests, g, users[..n], k);
      assert k.1 in users <==> k.1 in users[..n] || k.1 == users[n];
    }
  }

  /** Joining: an ordinary member, if the group is open to all or the user has rights;
      else a request that is not handled yet. */
  lemma JoinChanges(s: State, op: Op, r: Request)
    requires r.Join? && Granted(s, op, r)
    ensures var (s', k) := (Apply(s, op, r), (r.groupID, r.userID));
            if s.groups[r.groupID].needVerification == 2 || r.auth > 0
            then s' == State(s.users, s.groups, s.members[k := 20], s.requests) && k !in s.members
            else s' == State(s.users, s.groups, s.members, s.requests[k := 0])
  {
  }

  /** Responding: the request is handled as said; who is agreed to and is no member yet
      is an ordinary one, and who is one keeps the role. */
  lemma RespondChanges(s: State, op: Op, r: Request)
    requires r.Respond? && Granted(s, op, r)
    ensures var (s', k) := (Apply(s, op, r), (r.groupID, r.fromUserID));
            && s'.users == s.users && s'.groups == s.groups && s'.requests == s.requests[k := r.handleResult]
            && k in s.requests && s.requests[k] == 0 && (r.handleResult == 1 || r.handleResult == -1)
            && s'.members == if r.handleResult == 1 && k !in s.members then s.members[k := 20] else s.members
  {
  }

  /** Kicking: exactly the kicked are no members any more. */
  lemma KickChanges(s: State, op: Op, r: Request, k: Key)
    requires r.Kick? && Granted(s, op, r)
    ensures var s' := Apply(s, op, r);
            && s'.users == s.users && s'.groups == s.groups && s'.requests == s.requests
            && (k in s'.members <==> k in s.members && !(k.0 == r.groupID && k.1 in r.kicked))
            && (k in s'.members ==> s'.members[k] == s.members[k])
  {
  }

  /** Quitting: exactly the one who quits is no member any more. */
  lemma QuitChanges(s: State, op: Op, r: Request, k: Key)
    requires r.Quit? && Granted(s, op, r)
    ensures var (s', u) := (Apply(s, op, r), if r.userID == "" then op.userID else r.userID);
            && s'.users == s.users && s'.groups == s.groups && s'.requests == s.requests
            && (r.groupID, u) in s.members && s.members[(r.groupID, u)] != 100
            && (k in s'.members <==> k in s.members && k != (r.groupID, u))
            && (k in s'.members ==> s'.members[k] == s.members[k])
  {
  }

  /** Transferring: the new owner has role 100, the old one the role of the new one. */
  lemma TransferChanges(s: State, op: Op, r: Request, k: Key)
    requires r.Transfer? && Granted(s, op, r)
    ensures var (s', old', new') := (Apply(s, op, r), (r.groupID, r.oldOwner), (r.groupID, r.newOwner));
            && s'.users == s.users && s'.groups == s.groups && s'.requests == s.requests
            && old' in s.members && new' in s.members && old' != new'
            && s'.members.Keys == s.members.Keys
            && (k in s.members ==>
                  s'.members[k] == (if k == new' then 100 else if k == old' then s.members[new'] else s.members[k]))
  {
  }

  /** Setting: exactly the roles asked for, and only of members. */
  lemma SetInfoChanges(s: State, op: Op, r: Request, k: Key)
    requires r.SetInfo? && Granted(s, op, r)
    ensures var s' := Apply(s, op, r);
            && s'.users == s.users && s'.groups == s.groups && s'.requests == s.requests
            && s'.members.Keys == s.members.Keys
            && (forall i | i in r.items && (i.groupID, i.userID) == k && i.roleLevel.Some? ::
                  && k in s'.members && s'.members[k] == i.roleLevel.value
                  && (i.roleLevel.value == 60 || i.roleLevel.value == 20))
            && (k in s.members && (forall i | i in r.items && (i.groupID, i.userID) == k :: i.roleLevel.None?) ==>
                  s'.members[k] == s.members[k])
  {
    SetRolesOwners(s.members, r.items, k);
    forall i | i in r.items && ItemKey(i) == k && i.roleLevel.Some?
      ensures k in Apply(s, op, r).members && Apply(s, op, r).members[k] == i.roleLevel.value
    {
      var n :| 0 <= n < |r.items| && r.items[n] == i;
      ItemsApart(s, op, r);
      SetRolesExact(s.members, r.items, n);
    }
    if forall i | i in r.items && ItemKey(i) == k :: i.roleLevel.None? {
      SetRolesElsewhere(s.members, r.items, k);
    }
    assert forall i | i in r.items :: ItemKey(i) == (i.groupID, i.userID);
  }

  lemma {:induction false} SetRolesElsewhere(members: Members, items: seq<Item>, k: Key)
    requires forall i | i in items && ItemKey(i) == k :: i.roleLevel.None?
    ensures k in SetRoles(members, items) <==> k in members
    ensures k in members ==> SetRoles(members, items)[k] == members[k]
  {
    if items != [] {
      var n := |items| - 1;
      assert items[n] in items && forall i | i in items[..n] :: i in items;
      SetRolesElsewhere(members, items[..n], k);
    }
  }

  // ------------------------------------------------------------------ rank

  /** Members have one of the three roles. */
  predicate Ranked(s: State) {
    forall k | k in s.members :: s.members[k] == 100 || s.members[k] == 60 || s.members[k] == 20
  }

  function Rank(s: State, g: string, u: string): int {
    if (g, u) in s.members then s.members[(g, u)] else 0
  }

  lemma StaysRanked(s: State, op: Op, r: Request)
    requires Known(s) && Ranked(s) && Granted(s, op, r)
    ensures Ranked(Apply(s, op, r))
  {
    var s' := Apply(s, op, r);
    forall k | k in s'.members ensures s'.members[k] == 100 || s'.members[k] == 60 || s'.members[k] == 20 {
      match r
      case Create(_, _, _, _, _) => CreateChanges(s, op, r, k);
      case Invite(_, _, _) => InviteChanges(s, op, r, k);
      case SetInfo(_) => SetInfoChanges(s, op, r, k);
      case _ =>
    }
  }

  /** Who may create a group: a manager, or its owner, if nobody is named twice, all
      exist, who asks included, and a free ID is asked for or tried. */
  lemma CreateRights(s: State, op: Op, r: Request)
    requires r.Create? && Known(s)
    ensures Granted(s, op, r) <==>
            && r.info.groupType == 2 && r.info.groupName != "" && r.info.faceURL != ""
            && r.owner != "" && (op.manager || op.userID == r.owner)
            && (forall i, j | 0 <= i < j < |r.members| :: r.members[i] != r.members[j])
            && (forall i, j | 0 <= i < j < |r.admins| :: r.admins[i] != r.admins[j])
            && (forall u | u in r.members :: u !in r.admins && u != r.owner) && r.owner !in r.admins
            && (forall u | u in r.members || u in r.admins || u == r.owner || u == op.userID :: u in s.users)
            && if r.info.groupID != "" then r.info.groupID !in s.groups
               else exists t | t in r.candidates :: t !in s.groups
  {
    var named := Named(op, r.owner, r.admins, r.members);
    var (m, a) := (|r.members|, |r.admins|);
    assert forall i | 0 <= i < m :: named[i] == r.members[i];
    assert forall i | 0 <= i < a :: named[m + i] == r.admins[i];
    assert named[m + a] == r.owner && (m + a + 1 < |named| ==> named[m + a + 1] == op.userID);
    NamedExact(op, r.owner, r.admins, r.members);
    NewGroupID(s.groups, r.info.groupID, r.candidates);
    var id := NewID(s.groups, r.info.groupID, r.candidates);
    if id.Some? && NoDup(named) {
      NewIDFree(s.groups, r.info.groupID, r.candidates);
      RowsApart(s, op, r, id.value);
    }
  }

  lemma NamedExact(op: Op, owner: string, admins: seq<string>, members: seq<string>)
    ensures var named := Named(op, owner, admins, members);
            && (forall u :: u in named <==> u in members || u in admins || u == owner || u == op.userID)
            && (NoDup(named) <==> NoDup(members) && NoDup(admins) && owner !in admins
                                  && forall u | u in members :: u !in admins && u != owner)
  {
    var all := members + admins + [owner];
    assert forall u :: u in all <==> u in members || u in admins || u == owner;
    NoDupParts(members + admins, [owner]);
    NoDupParts(members, admins);
    NoDupParts(all, [op.userID]);
    assert forall u :: u in members + admins <==> u in members || u in admins;
  }

  lemma NoDupParts(a: seq<string>, b: seq<string>)
    ensures NoDup(a + b) <==> NoDup(a) && NoDup(b) && forall x | x in a :: x !in b
  {
    var c := a + b;
    assert forall i | 0 <= i < |a| :: c[i] == a[i];
    assert forall i | 0 <= i < |b| :: c[|a| + i] == b[i];
    if NoDup(c) {
      forall i, j | 0 <= i < |a| && 0 <= j < |b| ensures a[i] != b[j] {
        assert c[i] != c[|a| + j];
      }
    }
    if NoDup(a) && NoDup(b) && forall x | x in a :: x !in b {
      forall i, j | 0 <= i < j < |c| ensures c[i] != c[j] {
        assert j < |a| || (c[j] == b[j - |a|] && c[j] in b);
      }
    }
  }

  lemma RowsApart(s: State, op: Op, r: Request, id: string)
    requires r.Create? && Known(s) && id !in s.groups && NoDup(Named(op, r.owner, r.admins, r.members))
    ensures Insertable(s.members, CreateRows(id, r.owner, r.admins, r.members))
  {
    var (rows, users) := (CreateRows(id, r.owner, r.admins, r.members), [r.owner] + r.admins + r.members);
    NamedExact(op, r.owner, r.admins, r.members);
    NoDupParts([r.owner], r.admins);
    NoDupParts([r.owner] + r.admins, r.members);
    assert forall u :: u in [r.owner] + r.admins <==> u == r.owner || u in r.admins;
    assert forall i | 0 <= i < |rows| :: rows[i].key == (id, users[i]);
  }

  /** Who may invite whom: a manager or member, or one with rights, users that exist
      and, unless they must be approved first, are no members. */
  lemma InviteRights(s: State, op: Op, r: Request)
    requires r.Invite?
    ensures Granted(s, op, r) <==>
            && r.invited != [] && (forall i, j | 0 <= i < j < |r.invited| :: r.invited[i] != r.invited[j])
            && r.groupID in s.groups && s.groups[r.groupID].status != 2
            && (forall u | u in r.invited :: u in s.users)
            && (op.manager || r.auth >= 0 || (r.groupID, op.userID) in s.members)
            && (|| (s.groups[r.groupID].needVerification == 1 && r.auth < 0 && !op.manager
                    && Rank(s, r.groupID, op.userID) != 100 && Rank(s, r.groupID, op.userID) != 60)
                || forall u | u in r.invited :: (r.groupID, u) !in s.members)
  {
  }

  /** Who may join, decide about a request, quit and hand over the ownership. */
  lemma OtherRights(s: State, op: Op, r: Request)
    ensures match r
            case Join(g, u, _) =>
              Granted(s, op, r) <==>
              u in s.users && g in s.groups && s.groups[g].status != 2 && (g, u) !in s.members
            case Respond(g, u, result) =>
              Granted(s, op, r) <==>
              && (result == 1 || result == -1) && g in s.groups && u in s.users
              && (g, u) in s.requests && s.requests[(g, u)] == 0
              && (op.manager || Rank(s, g, op.userID) == 100 || Rank(s, g, op.userID) == 60)
            case Quit(g, _) =>
              var u := if r.userID == "" then op.userID else r.userID;
              Granted(s, op, r) <==>
              (op.manager || op.userID == u) && (g, u) in s.members && Rank(s, g, u) != 100
            case Transfer(g, from, to) =>
              Granted(s, op, r) <==>
              && g in s.groups && s.groups[g].status != 2 && from != to
              && (g, from) in s.members && (g, to) in s.members
              && (op.manager || (op.userID == from && Rank(s, g, from) == 100))
            case _ => true
  {
  }

  /** Who may kick: a manager, or a member of higher rank than each of the kicked, who
      are distinct other members. */
  lemma KickRights(s: State, op: Op, r: Request)
    requires r.Kick? && EachOneOwner(s) && Ranked(s)
    ensures Granted(s, op, r) <==>
            && r.groupID in s.groups && r.kicked != [] && op.userID !in r.kicked
            && (forall i, j | 0 <= i < j < |r.kicked| :: r.kicked[i] != r.kicked[j])
            && forall u | u in r.kicked ::
                 Rank(s, r.groupID, u) > 0 && (op.manager || Rank(s, r.groupID, op.userID) > Rank(s, r.groupID, u))
  {
    var g := r.groupID;
    if g in s.groups && r.kicked != [] && op.userID !in r.kicked {
      assert OneOwner(s, g);
      assert r.kicked[0] in r.kicked;
      if IsOwner(s, g, op.userID) {
        assert forall u | u in r.kicked :: !IsOwner(s, g, u);
      }
    }
  }

  /** Who may set roles and data: a manager, or a member of each group concerned, for
      itself and for those of lower rank. */
  lemma SetInfoRights(s: State, op: Op, r: Request)
    requires r.SetInfo? && EachOneOwner(s) && Ranked(s)
    ensures Granted(s, op, r) <==>
            && r.items != [] && op.userID != ""
            && (forall i | i in r.items && i.roleLevel.Some? :: i.roleLevel.value == 60 || i.roleLevel.value == 20)
            && (forall a, b | 0 <= a < b < |r.items| ::
                  r.items[a].groupID != r.items[b].groupID || r.items[a].userID != r.items[b].userID)
            && forall i | i in r.items ::
                 && Rank(s, i.groupID, i.userID) > 0
                 && (op.manager || (Rank(s, i.groupID, op.userID) > 0 &&
                       (i.userID == op.userID || Rank(s, i.groupID, op.userID) > Rank(s, i.groupID, i.userID))))
  {
    if Granted(s, op, r) {
      ItemsApart(s, op, r);
      forall i | i in r.items
        ensures Rank(s, i.groupID, i.userID) > 0
        ensures op.manager || (Rank(s, i.groupID, op.userID) > 0 &&
                  (i.userID == op.userID || Rank(s, i.groupID, op.userID) > Rank(s, i.groupID, i.userID)))
      {
        assert ItemKey(i) in s.members && GroupOK(s, op, i.groupID, Targets(r.items, i.groupID));
        TargetsExact(r.items, i.groupID, i.userID);
        assert i.userID in Targets(r.items, i.groupID);
        if !op.manager {
          RankIfMayChange(s, op, i.groupID, Targets(r.items, i.groupID), i.userID);
        }
      }
    } else if && r.items != [] && op.userID != ""
              && (forall i | i in r.items && i.roleLevel.Some? :: i.roleLevel.value == 60 || i.roleLevel.value == 20)
              && (forall a, b | 0 <= a < b < |r.items| :: ItemKey(r.items[a]) != ItemKey(r.items[b]))
              && (forall i | i in r.items :: RankOK(s, op, i)) {
      SetInfoGranted(s, op, r);
    }
  }

  /** The operator's rank is enough for one item. */
  predicate RankOK(s: State, op: Op, i: Item) {
    && Rank(s, i.groupID, i.userID) > 0
    && (op.manager || (Rank(s, i.groupID, op.userID) > 0 &&
          (i.userID == op.userID || Rank(s, i.groupID, op.userID) > Rank(s, i.groupID, i.userID))))
  }

  lemma RankIfMayChange(s: State, op: Op, g: string, targets: seq<string>, u: string)
    requires EachOneOwner(s) && Ranked(s) && MayChange(s, op, g, targets) && u in targets && (g, u) in s.members
    ensures Rank(s, g, op.userID) > 0 && (u == op.userID || Rank(s, g, op.userID) > Rank(s, g, u))
  {
    assert OneOwner(s, g);
    if HasRole(s, g, op.userID, OWNER) {
      assert IsOwner(s, g, op.userID) && (IsOwner(s, g, u) ==> u == op.userID);
    }
  }

  lemma SetInfoGranted(s: State, op: Op, r: Request)
    requires r.SetInfo? && Ranked(s) && r.items != [] && op.userID != ""
    requires forall i | i in r.items && i.roleLevel.Some? :: i.roleLevel.value == 60 || i.roleLevel.value == 20
    requires forall a, b | 0 <= a < b < |r.items| :: ItemKey(r.items[a]) != ItemKey(r.items[b])
    requires forall i | i in r.items :: RankOK(s, op, i)
    ensures Granted(s, op, r)
  {
    forall i | i in r.items ensures ItemKey(i) in s.members && GroupOK(s, op, i.groupID, Targets(r.items, i.groupID)) {
      var targets := Targets(r.items, i.groupID);
      assert RankOK(s, op, i);
      TargetsDistinct(r.items, i.groupID);
      forall u | u in targets ensures exists j | j in r.items :: ItemKey(j) == (i.groupID, u) && RankOK(s, op, j) {
        TargetsExact(r.items, i.groupID, u);
      }
    }
  }

  lemma {:induction false} TargetsDistinct(items: seq<Item>, g: string)
    requires forall a, b | 0 <= a < b < |items| :: ItemKey(items[a]) != ItemKey(items[b])
    ensures NoDup(Targets(items, g))
  {
    if items != [] {
      var n := |items| - 1;
      TargetsDistinct(items[..n], g);
      TargetsExact(items[..n], g, items[n].userID);
      forall i | i in items[..n] ensures ItemKey(i) != ItemKey(items[n]) {
        var a :| 0 <= a < n && items[a] == i;
      }
    }
  }

  /** Who is no member of a group and no manager can have nothing done to its members
      and requests, but ask to join and invite. */
  lemma OutsiderRights(s: State, op: Op, r: Request, g: string)
    requires Granted(s, op, r) && !op.manager && (g, op.userID) !in s.members
    ensures r.Respond? || r.Kick? || r.Quit? || r.Transfer? ==> r.groupID != g
    ensures r.SetInfo? ==> forall i | i in r.items :: i.groupID != g
    ensures r.Invite? && r.groupID == g ==> r.auth >= 0
  {
    if r.Kick? {
      assert r.kicked[0] in r.kicked;
    }
  }

  /** An ordinary member can neither decide about requests nor remove, promote or
      demote anybody else. */
  lemma OrdinaryRights(s: State, op: Op, r: Request, g: string)
    requires Granted(s, op, r) && !op.manager && Rank(s, g, op.userID) == 20
    ensures r.Respond? || r.Kick? || r.Transfer? ==> r.groupID != g
    ensures r.Quit? && r.groupID == g ==> r.userID == "" || r.userID == op.userID
    ensures r.SetInfo? ==> forall i | i in r.items && i.groupID == g :: i.userID == op.userID
  {
    if r.SetInfo? {
      forall i | i in r.items && i.groupID == g ensures i.userID == op.userID {
        TargetsExact(r.items, g, i.userID);
        assert ItemKey(i) == (g, i.userID) && GroupOK(s, op, g, Targets(r.items, g));
      }
    }
  }

  /** A dismissed group takes nobody in by invitation or on joining, and no transfer. */
  lemma DismissedIsClosed(s: State, op: Op, r: Request)
    requires (r.Invite? || r.Join? || r.Transfer?) && r.groupID in s.groups && s.groups[r.groupID].status == 2
    ensures !Granted(s, op, r)
  {
  }
}
