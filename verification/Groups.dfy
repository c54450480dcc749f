/** Group membership and roles: which requests are granted, what they change, and
    what becomes of the one owner every group should have. */
module Groups {
  import opened Messages
  import opened Sequences

  const OWNER := 100
  const ADMIN := 60
  const ORDINARY := 20

  const WORKING_GROUP := 2
  const STATUS_DISMISSED := 2
  const ALL_NEED_VERIFICATION := 1
  const DIRECTLY := 2
  const AGREE := 1
  const REFUSE := -1

  datatype Group = Group(status: int, needVerification: int)

  /** A group and a user. */
  type Key = (string, string)
  type Members = map<Key, int>

  /** The group database, and the users that exist. A request holds 0 until it is
      handled. */
  datatype State = State(users: set<string>, groups: map<string, Group>, members: Members, requests: map<Key, int>)

  /** Who makes a request; managers of the app have rights everywhere. */
  datatype Op = Op(userID: string, manager: bool)

  datatype GroupInfo = GroupInfo(groupID: string, groupType: int, groupName: string, faceURL: string, status: int)

  /** One change of a member's data; None leaves the role as it is. */
  datatype Item = Item(groupID: string, userID: string, roleLevel: Option<int>)

  /** The requests. `candidates` are the random group IDs tried; `auth` is what the
      extension field of the request grants its sender. */
  datatype Request =
    | Create(info: GroupInfo, owner: string, admins: seq<string>, members: seq<string>, candidates: seq<string>)
    | Invite(groupID: string, invited: seq<string>, auth: int)
    | Join(groupID: string, userID: string, auth: int)
    | Respond(groupID: string, fromUserID: string, handleResult: int)
    | Kick(groupID: string, kicked: seq<string>)
    | Quit(groupID: string, userID: string)
    | Transfer(groupID: string, oldOwner: string, newOwner: string)
    | SetInfo(items: seq<Item>)

  predicate IsMember(s: State, groupID: string, userID: string) {
    (groupID, userID) in s.members
  }

  predicate HasRole(s: State, groupID: string, userID: string, role: int) {
    (groupID, userID) in s.members && s.members[(groupID, userID)] == role
  }

  predicate IsOwner(s: State, groupID: string, userID: string) {
    HasRole(s, groupID, userID, OWNER)
  }

  /** May the operator decide about applications? */
  predicate Manages(s: State, op: Op, groupID: string) {
    op.manager || HasRole(s, groupID, op.userID, OWNER) || HasRole(s, groupID, op.userID, ADMIN)
  }

  predicate Open(s: State, groupID: string) {
    groupID in s.groups && s.groups[groupID].status != STATUS_DISMISSED
  }

  // ------------------------------------------------------------- inserting

  datatype Row = Row(key: Key, role: int)

  function RowsOf(groupID: string, users: seq<string>, role: int): (rows: seq<Row>)
    ensures |rows| == |users| && forall i | 0 <= i < |users| :: rows[i] == Row((groupID, users[i]), role)
  {
    seq(|users|, i requires 0 <= i < |users| => Row((groupID, users[i]), role))
  }

  /** Insert-or-fail on the key. */
  predicate Insertable(members: Members, rows: seq<Row>) {
    && (forall i | 0 <= i < |rows| :: rows[i].key !in members)
    && forall i, j | 0 <= i < j < |rows| :: rows[i].key != rows[j].key
  }

  function Inserted(members: Members, rows: seq<Row>): Members {
    if rows == [] then members
    else Inserted(members, rows[..|rows| - 1])[rows[|rows| - 1].key := rows[|rows| - 1].role]
  }

  /** After an insertion a key has what its row says, and every other key what it
      had. */
  lemma {:induction false} InsertedExact(members: Members, rows: seq<Row>, k: Key)
    requires Insertable(members, rows)
    ensures forall i | 0 <= i < |rows| && rows[i].key == k ::
              k in Inserted(members, rows) && Inserted(members, rows)[k] == rows[i].role
    ensures (forall i | 0 <= i < |rows| :: rows[i].key != k) ==>
              (k in Inserted(members, rows) <==> k in members)
              && (k in members ==> Inserted(members, rows)[k] == members[k])
  {
    if rows != [] {
      InsertedExact(members, rows[..|rows| - 1], k);
    }
  }

  function Asked(requests: map<Key, int>, groupID: string, users: seq<string>): map<Key, int> {
    if users == [] then requests
    else Asked(requests, groupID, users[..|users| - 1])[(groupID, users[|users| - 1]) := 0]
  }

  function Without(members: Members, groupID: string, users: seq<string>): Members {
    map k | k in members && !(k.0 == groupID && k.1 in users) :: members[k]
  }

  // ------------------------------------------------------------- requests

  /** The users a new group is made of, as they are checked. */
  function Named(op: Op, owner: string, admins: seq<string>, members: seq<string>): seq<string> {
    var userIDs := members + admins + [owner];
    if op.userID in userIDs then userIDs else userIDs + [op.userID]
  }

  /** The ID of the new group: the one asked for, or the first free one tried. */
  function NewID(groups: map<string, Group>, groupID: string, candidates: seq<string>): Option<string> {
    if groupID != "" then (if groupID in groups then None else Some(groupID))
    else if candidates == [] then None
    else if candidates[0] !in groups then Some(candidates[0])
    else NewID(groups, groupID, candidates[1..])
  }

  function CreateRows(groupID: string, owner: string, admins: seq<string>, members: seq<string>): seq<Row> {
    [Row((groupID, owner), OWNER)] + RowsOf(groupID, admins, ADMIN) + RowsOf(groupID, members, ORDINARY)
  }

  predicate CreateOK(s: State, op: Op, r: Request)
    requires r.Create?
  {
    var id := NewID(s.groups, r.info.groupID, r.candidates);
    && r.info.groupType == WORKING_GROUP && r.info.groupName != "" && r.info.faceURL != ""
    && r.owner != "" && (op.manager || op.userID == r.owner)
    && NoDup(Named(op, r.owner, r.admins, r.members))
    && (forall u | u in Named(op, r.owner, r.admins, r.members) :: u in s.users)
    && id.Some?
    && Insertable(s.members, CreateRows(id.value, r.owner, r.admins, r.members))
  }

  /** Must the invited be approved first? */
  predicate Asks(s: State, op: Op, r: Request)
    requires r.Invite? && r.groupID in s.groups
  {
    s.groups[r.groupID].needVerification == ALL_NEED_VERIFICATION && r.auth < 0 && !Manages(s, op, r.groupID)
  }

  predicate InviteOK(s: State, op: Op, r: Request)
    requires r.Invite?
  {
    && r.invited != [] && NoDup(r.invited) && Open(s, r.groupID)
    && (forall u | u in r.invited :: u in s.users)
    && (op.manager || r.auth >= 0 || IsMember(s, r.groupID, op.userID))
    && (Asks(s, op, r) || Insertable(s.members, RowsOf(r.groupID, r.invited, ORDINARY)))
  }

  predicate RespondOK(s: State, op: Op, r: Request)
    requires r.Respond?
  {
    var k := (r.groupID, r.fromUserID);
    && (r.handleResult == AGREE || r.handleResult == REFUSE)
    && Manages(s, op, r.groupID) && r.groupID in s.groups
    && k in s.requests && s.requests[k] == 0 && r.fromUserID in s.users
  }

  predicate KickOK(s: State, op: Op, r: Request)
    requires r.Kick?
  {
    && r.groupID in s.groups && r.kicked != [] && NoDup(r.kicked) && op.userID !in r.kicked
    && (forall u | u in r.kicked :: IsMember(s, r.groupID, u))
    && (|| op.manager
        || HasRole(s, r.groupID, op.userID, OWNER)
        || (HasRole(s, r.groupID, op.userID, ADMIN) &&
            forall u | u in r.kicked :: !HasRole(s, r.groupID, u, OWNER) && !HasRole(s, r.groupID, u, ADMIN)))
  }

  function Quitter(op: Op, userID: string): string {
    if userID == "" then op.userID else userID
  }

  predicate QuitOK(s: State, op: Op, r: Request)
    requires r.Quit?
  {
    var u := Quitter(op, r.userID);
    (op.manager || op.userID == u) && IsMember(s, r.groupID, u) && !IsOwner(s, r.groupID, u)
  }

  predicate TransferOK(s: State, op: Op, r: Request)
    requires r.Transfer?
  {
    && Open(s, r.groupID) && r.oldOwner != r.newOwner
    && IsMember(s, r.groupID, r.oldOwner) && IsMember(s, r.groupID, r.newOwner)
    && (op.manager || (op.userID == r.oldOwner && IsOwner(s, r.groupID, r.oldOwner)))
  }

  function ItemKey(i: Item): Key {
    (i.groupID, i.userID)
  }

  /** May an operator with this role change these members of the group? */
  predicate MayChange(s: State, op: Op, groupID: string, targets: seq<string>) {
    || HasRole(s, groupID, op.userID, OWNER)
    || (HasRole(s, groupID, op.userID, ADMIN) &&
        forall u | u in targets ::
          !HasRole(s, groupID, u, OWNER) && (HasRole(s, groupID, u, ADMIN) ==> u == op.userID))
    || (HasRole(s, groupID, op.userID, ORDINARY) && forall u | u in targets :: u == op.userID)
  }

  /** The members of one group a request wants to change, in its order. */
  function Targets(items: seq<Item>, groupID: string): seq<string> {
    if items == [] then []
    else
      var (before, last) := (Targets(items[..|items| - 1], groupID), items[|items| - 1]);
      if last.groupID == groupID then before + [last.userID] else before
  }

  /** What is checked of one group. */
  predicate GroupOK(s: State, op: Op, groupID: string, targets: seq<string>) {
    && NoDup(targets)
    && (forall u | u in targets && u != op.userID :: IsMember(s, groupID, u))
    && (op.manager || MayChange(s, op, groupID, targets))
  }

  predicate SetInfoOK(s: State, op: Op, r: Request)
    requires r.SetInfo?
  {
    && r.items != [] && op.userID != ""
    && (forall i | i in r.items :: i.roleLevel.Some? ==> i.roleLevel.value == ADMIN || i.roleLevel.value == ORDINARY)
    && (forall i | i in r.items :: GroupOK(s, op, i.groupID, Targets(r.items, i.groupID)))
    && (forall i | i in r.items :: ItemKey(i) in s.members)
  }

  predicate Granted(s: State, op: Op, r: Request) {
    match r
    case Create(_, _, _, _, _) => CreateOK(s, op, r)
    case Invite(_, _, _) => InviteOK(s, op, r)
    case Join(g, u, auth) => u in s.users && Open(s, g) && !IsMember(s, g, u)
    case Respond(_, _, _) => RespondOK(s, op, r)
    case Kick(_, _) => KickOK(s, op, r)
    case Quit(_, _) => QuitOK(s, op, r)
    case Transfer(_, _, _) => TransferOK(s, op, r)
    case SetInfo(_) => SetInfoOK(s, op, r)
  }

  function SetRoles(members: Members, items: seq<Item>): Members {
    if items == [] then members
    else
      var (before, last) := (SetRoles(members, items[..|items| - 1]), items[|items| - 1]);
      if last.roleLevel.Some? then before[ItemKey(last) := last.roleLevel.value] else before
  }

  /** What a granted request changes. */
  function Apply(s: State, op: Op, r: Request): State
    requires Granted(s, op, r)
  {
    match r
    case Create(info, owner, admins, members, candidates) =>
      var id := NewID(s.groups, info.groupID, candidates).value;
      s.(groups := s.groups[id := Group(info.status, DIRECTLY)],
         members := Inserted(s.members, CreateRows(id, owner, admins, members)))
    case Invite(g, invited, _) =>
      if Asks(s, op, r) then s.(requests := Asked(s.requests, g, invited))
      else s.(members := Inserted(s.members, RowsOf(g, invited, ORDINARY)))
    case Join(g, u, auth) =>
      if s.groups[g].needVerification == DIRECTLY || auth > 0 then s.(members := s.members[(g, u) := ORDINARY])
      else s.(requests := s.requests[(g, u) := 0])
    case Respond(g, u, result) =>
      var s1 := s.(requests := s.requests[(g, u) := result]);
      if result == AGREE && !IsMember(s, g, u) then s1.(members := s.members[(g, u) := ORDINARY]) else s1
    case Kick(g, kicked) => s.(members := Without(s.members, g, kicked))
    case Quit(g, u) => s.(members := Without(s.members, g, [Quitter(op, u)]))
    case Transfer(g, old', new') =>
      s.(members := s.members[(g, old') := s.members[(g, new')]][(g, new') := OWNER])
    case SetInfo(items) => s.(members := SetRoles(s.members, items))
  }

  // ---------------------------------------------------------------- owners

  predicate Known(s: State) {
    forall k | k in s.members :: k.0 in s.groups
  }

  ghost predicate AtMostOneOwner(s: State, g: string) {
    forall u, w | IsOwner(s, g, u) && IsOwner(s, g, w) :: u == w
  }

  ghost predicate OneOwner(s: State, g: string) {
    AtMostOneOwner(s, g) && exists u :: IsOwner(s, g, u)
  }

  ghost predicate EachOneOwner(s: State) {
    Known(s) && forall g | g in s.groups :: OneOwner(s, g)
  }

  ghost predicate EachAtMostOneOwner(s: State) {
    Known(s) && forall g | g in s.groups :: AtMostOneOwner(s, g)
  }

  /** The request leaves the owner alone: a transfer names the owner, a kick does
      not hit one, and no role of one is set. */
  predicate SparesOwner(s: State, r: Request) {
    match r
    case Kick(g, kicked) => forall u | u in kicked :: !IsOwner(s, g, u)
    case Transfer(g, old', _) => IsOwner(s, g, old')
    case SetInfo(items) => forall i | i in items && i.roleLevel.Some? :: !IsOwner(s, i.groupID, i.userID)
    case _ => true
  }

  /** A transfer names the owner, if there is one. */
  ghost predicate NamesOwner(s: State, r: Request) {
    r.Transfer? && (exists u :: IsOwner(s, r.groupID, u)) ==> IsOwner(s, r.groupID, r.oldOwner)
  }
}
