/** The group service as it is written: handlers that look members up, loop over
    what they found and update the database, proved to grant exactly the requests
    that should be and to change exactly what they should. */
module GroupServer {
  import opened Messages
  import opened Groups
  import opened Sequences

  /** A member as it is found: its user and its role. */
  type Found = (string, int)

  function FoundIn(members: Members, groupID: string, userIDs: seq<string>): seq<Found> {
    if userIDs == [] then []
    else
      var (before, u) := (FoundIn(members, groupID, userIDs[..|userIDs| - 1]), userIDs[|userIDs| - 1]);
      if (groupID, u) in members then before + [(u, members[(groupID, u)])] else before
  }

  lemma {:induction false} FoundExact(members: Members, g: string, ids: seq<string>)
    ensures forall m | m in FoundIn(members, g, ids) :: m.0 in ids && (g, m.0) in members && members[(g, m.0)] == m.1
    ensures forall u | u in ids && (g, u) in members :: (u, members[(g, u)]) in FoundIn(members, g, ids)
  {
    if ids != [] {
      var n := |ids| - 1;
      assert forall u | u in ids :: u in ids[..n] || u == ids[n];
      assert ids[n] in ids && forall u | u in ids[..n] :: u in ids;
      FoundExact(members, g, ids[..n]);
    }
  }

  predicate AllMembersBut(members: Members, g: string, ids: seq<string>, x: string) {
    forall u | u in ids && u != x :: (g, u) in members
  }

  /** Counting the found among distinct users tells who is missing: nobody if all
      are found, and only x if one is not and x is it. */
  lemma {:induction false} FoundCount(members: Members, g: string, ids: seq<string>, x: string)
    requires NoDup(ids)
    ensures |FoundIn(members, g, ids)| <= |ids|
    ensures |FoundIn(members, g, ids)| == |ids| <==> forall u | u in ids :: (g, u) in members
    ensures x in ids && (g, x) !in members ==>
              (|FoundIn(members, g, ids)| == |ids| - 1 <==> AllMembersBut(members, g, ids, x))
  {
    if ids != [] {
      var n := |ids| - 1;
      assert forall u | u in ids :: u in ids[..n] || u == ids[n];
      assert ids[n] in ids && forall u | u in ids[..n] :: u in ids;
      assert ids[n] !in ids[..n];
      FoundCount(members, g, ids[..n], x);
    }
  }

  function Existing(users: set<string>, ids: seq<string>): set<string> {
    if ids == [] then {}
    else
      var (before, u) := (Existing(users, ids[..|ids| - 1]), ids[|ids| - 1]);
      if u in users then before + {u} else before
  }

  lemma {:induction false} ExistingIn(users: set<string>, ids: seq<string>, u: string)
    requires u !in ids
    ensures u !in Existing(users, ids)
  {
    if ids != [] {
      var n := |ids| - 1;
      assert ids[n] in ids && (u in ids[..n] ==> u in ids);
      ExistingIn(users, ids[..n], u);
    }
  }

  lemma {:induction false} ExistingCount(users: set<string>, ids: seq<string>)
    requires NoDup(ids)
    ensures |Existing(users, ids)| <= |ids|
    ensures |Existing(users, ids)| == |ids| <==> forall i | 0 <= i < |ids| :: ids[i] in users
  {
    if ids != [] {
      var n := |ids| - 1;
      ExistingCount(users, ids[..n]);
      ExistingIn(users, ids[..n], ids[n]);
    }
  }

  /** utils.Duplicate. */
  method Duplicate(ids: seq<string>) returns (dup: bool)
    ensures dup <==> !NoDup(ids)
  {
    var t := {};
    for i := 0 to |ids|
      invariant NoDup(ids[..i]) && forall u :: u in t <==> u in ids[..i]
    {
      if ids[i] in t {
        var j :| 0 <= j < i && ids[j] == ids[i];
        return true;
      }
      t := t + {ids[i]};
    }
    return false;
  }

  /** Where a user is among the found, or -1. */
  method IndexOf(found: seq<Found>, userID: string) returns (index: int)
    ensures -1 <= index < |found| && (index >= 0 ==> found[index].0 == userID)
    ensures index == -1 ==> forall m | m in found :: m.0 != userID
  {
    index := -1;
    for i := 0 to |found|
      invariant index == -1 && forall j | 0 <= j < i :: found[j].0 != userID
    {
      if found[i].0 == userID {
        index := i;
        break;
      }
    }
  }

  /** An administrator may change neither the owner nor another administrator. */
  method AdminMay(found: seq<Found>, opUserID: string) returns (may: bool)
    ensures may <==> forall m | m in found :: m.1 != OWNER && (m.1 == ADMIN ==> m.0 == opUserID)
  {
    for i := 0 to |found|
      invariant forall m | m in found[..i] :: m.1 != OWNER && (m.1 == ADMIN ==> m.0 == opUserID)
    {
      if found[i].1 == OWNER {
        return false;
      }
      if found[i].1 == ADMIN && found[i].0 != opUserID {
        return false;
      }
    }
    assert found[..|found|] == found;
    return true;
  }

  /** An ordinary member may change only itself. */
  method OrdinaryMay(found: seq<Found>, opUserID: string) returns (may: bool)
    ensures may <==> forall m | m in found :: m.1 == ORDINARY && m.0 == opUserID
  {
    for i := 0 to |found|
      invariant forall m | m in found[..i] :: m.1 == ORDINARY && m.0 == opUserID
    {
      if !(found[i].1 == ORDINARY && found[i].0 == opUserID) {
        return false;
      }
    }
    assert found[..|found|] == found;
    return true;
  }

  /** Any other role may change only lower ones. */
  method OtherMay(found: seq<Found>, roleLevel: int) returns (may: bool)
    ensures may <==> forall m | m in found :: m.1 < roleLevel
  {
    for i := 0 to |found|
      invariant forall m | m in found[..i] :: m.1 < roleLevel
    {
      if found[i].1 >= roleLevel {
        return false;
      }
    }
    assert found[..|found|] == found;
    return true;
  }

  class GroupServer {
    const users: set<string>
    var groups: map<string, Group>
    var members: Members
    var requests: map<Key, int>

    function View(): State
      reads this
    {
      State(users, groups, members, requests)
    }

    constructor (users: set<string>)
      ensures View() == State(users, map[], map[], map[])
    {
      this.users := users;
      groups, members, requests := map[], map[], map[];
    }

    // ---------------------------------------------------------- database

    method FindGroupMembers(groupID: string, userIDs: seq<string>) returns (found: seq<Found>)
      ensures found == FoundIn(members, groupID, userIDs)
    {
      found := [];
      for i := 0 to |userIDs|
        invariant found == FoundIn(members, groupID, userIDs[..i])
      {
        assert userIDs[..i + 1][..i] == userIDs[..i];
        if (groupID, userIDs[i]) in members {
          found := found + [(userIDs[i], members[(groupID, userIDs[i])])];
        }
      }
      assert userIDs[..|userIDs|] == userIDs;
    }

    /** GetUsersInfoMap, and the comparison of its size. */
    method AllExist(userIDs: seq<string>) returns (all: bool)
      requires NoDup(userIDs)
      ensures all <==> forall u | u in userIDs :: u in users
    {
      var userMap := {};
      for i := 0 to |userIDs|
        invariant userMap == Existing(users, userIDs[..i])
      {
        assert userIDs[..i + 1][..i] == userIDs[..i];
        if userIDs[i] in users {
          userMap := userMap + {userIDs[i]};
        }
      }
      assert userIDs[..|userIDs|] == userIDs;
      ExistingCount(users, userIDs);
      return |userMap| == |userIDs|;
    }

    /** Inserts all rows or, if a key is taken, none. */
    method Insert(rows: seq<Row>) returns (ok: bool)
      modifies this`members
      ensures ok <==> Insertable(old(members), rows)
      ensures members == if ok then Inserted(old(members), rows) else old(members)
    {
      var m := members;
      for i := 0 to |rows|
        invariant members == old(members) && Insertable(members, rows[..i]) && m == Inserted(members, rows[..i])
      {
        assert rows[..i + 1][..i] == rows[..i];
        InsertedExact(members, rows[..i], rows[i].key);
        if rows[i].key in m {
          if rows[i].key !in members {
            var j :| 0 <= j < i && rows[..i][j].key == rows[i].key;
            assert rows[j].key == rows[i].key;
          }
          return false;
        }
        forall j | 0 <= j < i ensures rows[j].key != rows[i].key {
          assert rows[..i][j] == rows[j];
        }
        m := m[rows[i].key := rows[i].role];
      }
      assert rows[..|rows|] == rows;
      members := m;
      return true;
    }

    /** Updates all items or, if a member is missing, none. */
    method UpdateGroupMembers(items: seq<Item>) returns (ok: bool)
      modifies this`members
      ensures ok <==> forall i | i in items :: ItemKey(i) in old(members)
      ensures members == if ok then SetRoles(old(members), items) else old(members)
    {
      var m := members;
      for i := 0 to |items|
        invariant m == SetRoles(members, items[..i]) && m.Keys == members.Keys
        invariant forall item | item in items[..i] :: ItemKey(item) in members
      {
        assert items[..i + 1][..i] == items[..i];
        var item := items[i];
        if ItemKey(item) !in m {
          return false;
        }
        if item.roleLevel.Some? {
          m := m[ItemKey(item) := item.roleLevel.value];
        }
      }
      assert items[..|items|] == items;
      members := m;
      return true;
    }

    /** GenGroupID. */
    method GenGroupID(groupID: string, candidates: seq<string>) returns (id: Option<string>)
      ensures id == NewID(groups, groupID, candidates)
    {
      if groupID != "" {
        if groupID in groups {
          return None;
        }
        return Some(groupID);
      }
      for i := 0 to |candidates|
        invariant NewID(groups, groupID, candidates) == NewID(groups, groupID, candidates[i..])
      {
        if candidates[i] !in groups {
          return Some(candidates[i]);
        }
      }
      return None;
    }

    // ---------------------------------------------------------- handlers

    method CreateGroup(op: Op, info: GroupInfo, owner: string, admins: seq<string>, ordinary: seq<string>,
                       candidates: seq<string>) returns (ok: bool)
      modifies this
      ensures var r := Create(info, owner, admins, ordinary, candidates);
              && (ok <==> Granted(old(View()), op, r))
              && View() == if ok then Apply(old(View()), op, r) else old(View())
    {
      if info.groupType != WORKING_GROUP || info.groupName == "" || info.faceURL == "" || owner == "" {
        return false;
      }
      if !(op.manager || op.userID == owner) {
        return false;
      }
      var userIDs := ordinary + admins + [owner];
      if op.userID !in userIDs {
        userIDs := userIDs + [op.userID];
      }
      var dup := Duplicate(userIDs);
      if dup {
        return false;
      }
      var all := AllExist(userIDs);
      if !all {
        return false;
      }
      var id := GenGroupID(info.groupID, candidates);
      if id.None? {
        return false;
      }
      ok := Insert(CreateRows(id.value, owner, admins, ordinary));
      if ok {
        groups := groups[id.value := Group(info.status, DIRECTLY)];
      }
    }

    method InviteUserToGroup(op: Op, groupID: string, invited: seq<string>, auth: int) returns (ok: bool)
      modifies this
      ensures var r := Invite(groupID, invited, auth);
              && (ok <==> Granted(old(View()), op, r))
              && View() == if ok then Apply(old(View()), op, r) else old(View())
    {
      if |invited| == 0 {
        return false;
      }
      var dup := Duplicate(invited);
      if dup || groupID !in groups || groups[groupID].status == STATUS_DISMISSED {
        return false;
      }
      var all := AllExist(invited);
      if !all {
        return false;
      }
      if !op.manager && auth < 0 {
        if (groupID, op.userID) !in members {
          return false;
        }
        var role := members[(groupID, op.userID)];
        if groups[groupID].needVerification == ALL_NEED_VERIFICATION && !(role == OWNER || role == ADMIN) {
          CreateGroupRequests(groupID, invited);
          return true;
        }
      }
      ok := Insert(RowsOf(groupID, invited, ORDINARY));
    }

    method CreateGroupRequests(groupID: string, userIDs: seq<string>)
      modifies this`requests
      ensures requests == Asked(old(requests), groupID, userIDs)
    {
      for i := 0 to |userIDs|
        invariant requests == Asked(old(requests), groupID, userIDs[..i])
      {
        assert userIDs[..i + 1][..i] == userIDs[..i];
        requests := requests[(groupID, userIDs[i]) := 0];
      }
      assert userIDs[..|userIDs|] == userIDs;
    }

    method JoinGroup(op: Op, groupID: string, userID: string, auth: int) returns (ok: bool)
      modifies this
      ensures var r := Join(groupID, userID, auth);
              && (ok <==> Granted(old(View()), op, r))
              && View() == if ok then Apply(old(View()), op, r) else old(View())
    {
      if userID !in users || groupID !in groups || groups[groupID].status == STATUS_DISMISSED {
        return false;
      }
      if (groupID, userID) in members {
        return false;
      }
      if groups[groupID].needVerification == DIRECTLY || auth > 0 {
        members := members[(groupID, userID) := ORDINARY];
      } else {
        requests := requests[(groupID, userID) := 0];
      }
      return true;
    }

    method GroupApplicationResponse(op: Op, groupID: string, fromUserID: string, handleResult: int) returns (ok: bool)
      modifies this
      ensures var r := Respond(groupID, fromUserID, handleResult);
              && (ok <==> Granted(old(View()), op, r))
              && View() == if ok then Apply(old(View()), op, r) else old(View())
    {
      if handleResult != AGREE && handleResult != REFUSE {
        return false;
      }
      if !op.manager {
        if (groupID, op.userID) !in members {
          return false;
        }
        var role := members[(groupID, op.userID)];
        if !(role == OWNER || role == ADMIN) {
          return false;
        }
      }
      var k := (groupID, fromUserID);
      if groupID !in groups || k !in requests || requests[k] != 0 || fromUserID !in users {
        return false;
      }
      requests := requests[k := handleResult];
      if k !in members && handleResult == AGREE {
        members := members[k := ORDINARY];
      }
      return true;
    }

    /** The loop of KickGroupMember over those to be kicked. */
    method MayKick(op: Op, groupID: string, kicked: seq<string>) returns (may: bool)
      ensures may <==> && (forall u | u in kicked :: IsMember(View(), groupID, u))
                       && (|| kicked == [] || op.manager
                           || HasRole(View(), groupID, op.userID, OWNER)
                           || (HasRole(View(), groupID, op.userID, ADMIN) &&
                               forall u | u in kicked ::
                                 !HasRole(View(), groupID, u, OWNER) && !HasRole(View(), groupID, u, ADMIN)))
    {
      var opKey := (groupID, op.userID);
      for i := 0 to |kicked|
        invariant forall u | u in kicked[..i] :: (groupID, u) in members
        invariant i > 0 ==> || op.manager
                            || HasRole(View(), groupID, op.userID, OWNER)
                            || (HasRole(View(), groupID, op.userID, ADMIN) &&
                                forall u | u in kicked[..i] ::
                                  !HasRole(View(), groupID, u, OWNER) && !HasRole(View(), groupID, u, ADMIN))
      {
        assert kicked[i] in kicked;
        if (groupID, kicked[i]) !in members {
          return false;
        }
        var roleLevel := members[(groupID, kicked[i])];
        if !op.manager {
          if opKey !in members {
            return false;
          }
          if members[opKey] == OWNER {
          } else if members[opKey] == ADMIN {
            if roleLevel == OWNER || roleLevel == ADMIN {
              return false;
            }
          } else {
            return false;
          }
        }
      }
      assert kicked[..|kicked|] == kicked;
      return true;
    }

    method KickGroupMember(op: Op, groupID: string, kicked: seq<string>) returns (ok: bool)
      modifies this
      ensures var r := Kick(groupID, kicked);
              && (ok <==> Granted(old(View()), op, r))
              && View() == if ok then Apply(old(View()), op, r) else old(View())
    {
      if groupID !in groups || |kicked| == 0 {
        return false;
      }
      var dup := Duplicate(kicked);
      if dup || op.userID in kicked {
        return false;
      }
      ok := MayKick(op, groupID, kicked);
      if ok {
        members := Without(members, groupID, kicked);
      }
    }

    method QuitGroup(op: Op, groupID: string, userID: string) returns (ok: bool)
      modifies this
      ensures var r := Quit(groupID, userID);
              && (ok <==> Granted(old(View()), op, r))
              && View() == if ok then Apply(old(View()), op, r) else old(View())
    {
      var u := userID;
      if u == "" {
        u := op.userID;
      } else if !(op.manager || op.userID == u) {
        return false;
      }
      if (groupID, u) !in members || members[(groupID, u)] == OWNER {
        return false;
      }
      members := Without(members, groupID, [u]);
      return true;
    }

    method TransferGroupOwner(op: Op, groupID: string, oldOwner: string, newOwner: string) returns (ok: bool)
      modifies this
      ensures var r := Transfer(groupID, oldOwner, newOwner);
              && (ok <==> Granted(old(View()), op, r))
              && View() == if ok then Apply(old(View()), op, r) else old(View())
    {
      if groupID !in groups || groups[groupID].status == STATUS_DISMISSED || oldOwner == newOwner {
        return false;
      }
      var (o, n) := ((groupID, oldOwner), (groupID, newOwner));
      if o !in members || n !in members {
        return false;
      }
      if !op.manager {
        if !(op.userID == oldOwner && members[o] == OWNER) {
          return false;
        }
      }
      var roleLevel := members[n];
      members := members[o := roleLevel];
      members := members[n := OWNER];
      return true;
    }

    /** What SetGroupMemberInfo checks of one group. */
    method CheckGroup(op: Op, groupID: string, targets: seq<string>) returns (ok: bool)
      ensures ok <==> GroupOK(View(), op, groupID, targets)
    {
      var dup := Duplicate(targets);
      if dup {
        return false;
      }
      var userIDs := targets;
      if op.userID !in targets {
        userIDs := userIDs + [op.userID];
      }
      var dbMembers := FindGroupMembers(groupID, userIDs);
      FoundCount(members, groupID, userIDs, op.userID);
      FoundExact(members, groupID, userIDs);
      var opUserIndex := IndexOf(dbMembers, op.userID);
      var missing := |userIDs| - |dbMembers|;
      if missing == 0 {
        if !op.manager {
          assert (op.userID, members[(groupID, op.userID)]) in dbMembers;
          var roleLevel := dbMembers[opUserIndex].1;
          ok := MayChangeFound(op, groupID, userIDs, dbMembers, roleLevel, targets);
          return ok;
        }
      } else if missing == 1 {
        if opUserIndex >= 0 {
          return false;
        }
        if !op.manager {
          return false;
        }
      } else {
        return false;
      }
      return true;
    }

    /** The role switch of that check. */
    method MayChangeFound(op: Op, groupID: string, ghost userIDs: seq<string>, dbMembers: seq<Found>, roleLevel: int,
                          ghost targets: seq<string>) returns (ok: bool)
      requires dbMembers == FoundIn(members, groupID, userIDs)
      requires forall u | u in userIDs :: IsMember(View(), groupID, u)
      requires op.userID in userIDs && HasRole(View(), groupID, op.userID, roleLevel)
      requires forall u :: u in userIDs <==> u in targets || u == op.userID
      ensures ok <==> MayChange(View(), op, groupID, targets)
    {
      FoundExact(members, groupID, userIDs);
      assert (op.userID, roleLevel) in dbMembers;
      if roleLevel == OWNER {
        return true;
      }
      if roleLevel == ADMIN {
        ok := AdminMay(dbMembers, op.userID);
      } else if roleLevel == ORDINARY {
        ok := OrdinaryMay(dbMembers, op.userID);
      } else {
        ok := OtherMay(dbMembers, roleLevel);
      }
    }

    /** The items by group, unless one asks for a role that cannot be set. */
    method ByGroup(items: seq<Item>) returns (ok: bool, groupMembers: map<string, seq<string>>)
      ensures ok <==> forall i | i in items && i.roleLevel.Some? ::
                i.roleLevel.value == ADMIN || i.roleLevel.value == ORDINARY
      ensures ok ==> forall g :: g in groupMembers <==> Targets(items, g) != []
      ensures ok ==> forall g | g in groupMembers :: groupMembers[g] == Targets(items, g)
    {
      groupMembers := map[];
      for i := 0 to |items|
        invariant forall item | item in items[..i] :: item.roleLevel.Some? ==>
                    item.roleLevel.value == ADMIN || item.roleLevel.value == ORDINARY
        invariant forall g :: g in groupMembers <==> Targets(items[..i], g) != []
        invariant forall g | g in groupMembers :: groupMembers[g] == Targets(items[..i], g)
      {
        assert items[..i + 1][..i] == items[..i];
        var member := items[i];
        if member.roleLevel.Some? && member.roleLevel.value != ADMIN && member.roleLevel.value != ORDINARY {
          return false, map[];
        }
        if member.groupID in groupMembers {
          groupMembers := groupMembers[member.groupID := groupMembers[member.groupID] + [member.userID]];
        } else {
          assert [] + [member.userID] == [member.userID];
          groupMembers := groupMembers[member.groupID := [member.userID]];
        }
      }
      assert items[..|items|] == items;
      return true, groupMembers;
    }

    /** The loop over the groups, in no particular order. */
    method CheckGroups(op: Op, ghost items: seq<Item>, groupMembers: map<string, seq<string>>) returns (ok: bool)
      requires forall g :: g in groupMembers <==> Targets(items, g) != []
      requires forall g | g in groupMembers :: groupMembers[g] == Targets(items, g)
      ensures ok <==> forall i | i in items :: GroupOK(View(), op, i.groupID, Targets(items, i.groupID))
    {
      var todo := groupMembers.Keys;
      while todo != {}
        invariant todo <= groupMembers.Keys
        invariant forall g | g in groupMembers && g !in todo :: GroupOK(View(), op, g, Targets(items, g))
      {
        var g :| g in todo;
        TargetsNamed(items, g);
        var may := CheckGroup(op, g, groupMembers[g]);
        if !may {
          return false;
        }
        todo := todo - {g};
      }
      forall i | i in items ensures GroupOK(View(), op, i.groupID, Targets(items, i.groupID)) {
        TargetsHold(items, i);
        assert i.groupID in groupMembers;
      }
      return true;
    }

    method SetGroupMemberInfo(op: Op, items: seq<Item>) returns (ok: bool)
      modifies this
      ensures var r := SetInfo(items);
              && (ok <==> Granted(old(View()), op, r))
              && View() == if ok then Apply(old(View()), op, r) else old(View())
    {
      if |items| == 0 || op.userID == "" {
        return false;
      }
      var valid, groupMembers := ByGroup(items);
      if !valid {
        return false;
      }
      var may := CheckGroups(op, items, groupMembers);
      if !may {
        return false;
      }
      ok := UpdateGroupMembers(items);
    }
  }

  lemma {:induction false} TargetsHold(items: seq<Item>, i: Item)
    requires i in items
    ensures i.userID in Targets(items, i.groupID)
  {
    var n := |items| - 1;
    if i != items[n] {
      assert i in items[..n];
      TargetsHold(items[..n], i);
    }
  }

  lemma {:induction false} TargetsNamed(items: seq<Item>, g: string)
    ensures Targets(items, g) != [] ==> exists i | i in items :: i.groupID == g
  {
    if items != [] {
      var n := |items| - 1;
      assert items[n] in items && forall i | i in items[..n] :: i in items;
      TargetsNamed(items[..n], g);
    }
  }
}
