// Group management: what each transaction does to the tables.
module GroupSpec {
  import opened Wrappers
  import opened Chat
  import opened Tables
  import opened PersistSpec

  datatype GroupError =
    | NotOwner
    | GroupFull
    | GroupDismissed
    | BadTarget
    | OwnerCantQuit
    | NotFound
    | Violated  // a primary key or unique constraint

  /** The outcome of a transaction: the new tables and the id of the event row, or an error. */
  datatype GroupOut = Ok(db: Db, event: Id) | Refused(error: GroupError)

  const GROUP_MAX_MEMBERS := 500

  // ---------------------------------------------------------------- rows of group_members

  function FindMember(ms: seq<Member>, u: Uid): Option<Member> {
    if ms == [] then None
    else if ms[|ms| - 1].uid == u then Some(ms[|ms| - 1])
    else FindMember(ms[..|ms| - 1], u)
  }

  function WithoutMember(ms: seq<Member>, u: Uid): seq<Member> {
    if ms == [] then []
    else
      var k := |ms| - 1;
      WithoutMember(ms[..k], u) + if ms[k].uid == u then [] else [ms[k]]
  }

  /** INSERT ... ON CONFLICT (gid, uid) DO UPDATE SET left_at = NULL, joined_at = now(): a new row, or
      the old one with its old role, as the latest to join. */
  function Rejoin(ms: seq<Member>, u: Uid): seq<Member> {
    match FindMember(ms, u)
    case None => ms + [Member(u, Ordinary, false)]
    case Some(m) => WithoutMember(ms, u) + [m.(left := false)]
  }

  function RejoinAll(ms: seq<Member>, us: seq<Uid>): seq<Member> {
    if us == [] then ms else Rejoin(RejoinAll(ms, us[..|us| - 1]), us[|us| - 1])
  }

  /** UPDATE ... SET left_at = now() */
  function MarkLeft(ms: seq<Member>, u: Uid): (r: seq<Member>)
    ensures |r| == |ms|
  {
    if ms == [] then []
    else
      var k := |ms| - 1;
      MarkLeft(ms[..k], u) + [if ms[k].uid == u then ms[k].(left := true) else ms[k]]
  }

  /** The uids that are not active members, in order. */
  function Newcomers(ms: seq<Member>, us: seq<Uid>): seq<Uid> {
    if us == [] then []
    else
      var k := |us| - 1;
      Newcomers(ms, us[..k]) + if us[k] in ActiveUids(ms) then [] else [us[k]]
  }

  // ---------------------------------------------------------------- the event row

  /** The event goes into the number stream of the group, in the same transaction. */
  function InsertEvent(db: Db, g: ConvId, actor: Uid, note: Content, draw: nat): GroupOut {
    if Drawn(draw) in db.messages || Numbered(db, g, Counter(db, g) + 1) then Refused(Violated)
    else Ok(Append(db, Drawn(draw), g, actor, SystemEvent, note), Drawn(draw))
  }

  // ---------------------------------------------------------------- creation

  function OwnerFirst(owner: Uid, members: seq<Uid>): seq<Uid> {
    if members == [] then [owner]
    else
      var k := |members| - 1;
      OwnerFirst(owner, members[..k]) + if members[k] == owner then [] else [members[k]]
  }

  function NewRoster(owner: Uid, all: seq<Uid>): (r: seq<Member>)
    ensures |r| == |all|
  {
    if all == [] then []
    else
      var k := |all| - 1;
      NewRoster(owner, all[..k]) + [Member(all[k], if all[k] == owner then Owner else Ordinary, false)]
  }

  predicate HasDuplicates(us: seq<Uid>) {
    exists i, j :: 0 <= i < j < |us| && us[i] == us[j]
  }

  function CreateGroup(db: Db, g: ConvId, owner: Uid, name: string, members: seq<Uid>, note: Content, draw: nat):
    GroupOut
  {
    var all := OwnerFirst(owner, members);
    if owner == "" || name == "" then Refused(BadTarget)
    else if g in db.groups || g in db.roster || HasDuplicates(all) || g in db.convs then Refused(Violated)
    else
      InsertEvent(
        db.(groups := db.groups[g := GroupRow(name, "", owner, None, Active, |members| + 1)],
            roster := db.roster[g := NewRoster(owner, all)],
            convs := db.convs[g := Conversation(true, all, 0)],
            convMembers := db.convMembers + set u | u in all :: (g, u)),
        g, owner, note, draw)
  }

  // ---------------------------------------------------------------- owner-only changes

  datatype Change =
    | AddMembers(uids: seq<Uid>)
    | RemoveMember(target: Uid)
    | Rename(name: string)
    | SetAnnouncement(text: string)
    | SetPin(id: Id)
    | Dismiss

  datatype Changed = Done(db: Db) | Rejected(error: GroupError)

  /** UPDATE groups SET member_count = (SELECT count(*) ...) */
  function Recount(db: Db, g: ConvId): Db
    requires g in db.groups
  {
    db.(groups := db.groups[g := db.groups[g].(memberCount := |ActiveUids(Roster(db, g))|)])
  }

  function ApplyChange(db: Db, g: ConvId, change: Change): Changed
    requires g in db.groups
  {
    var ms := Roster(db, g);
    match change
    case AddMembers(us) =>
      var news := Newcomers(ms, us);
      if |ActiveUids(ms)| + |news| > GROUP_MAX_MEMBERS then Rejected(GroupFull)
      else Done(Recount(
        db.(roster := db.roster[g := RejoinAll(ms, news)],
            convMembers := db.convMembers + set u | u in news :: (g, u)), g))
    case RemoveMember(target) =>
      if target !in ActiveUids(ms) then Rejected(BadTarget)
      else Done(Recount(
        db.(roster := db.roster[g := MarkLeft(ms, target)],
            convMembers := db.convMembers - {(g, target)}), g))
    case Rename(name) => Done(db.(groups := db.groups[g := db.groups[g].(name := name)]))
    case SetAnnouncement(text) => Done(db.(groups := db.groups[g := db.groups[g].(announcement := text)]))
    case SetPin(id) =>
      Done(db.(groups := db.groups[g := db.groups[g].(pinned := if id == NoId then None else Some(id))]))
    case Dismiss => Done(db.(groups := db.groups[g := db.groups[g].(status := Dismissed)]))
  }

  /** What the caller checks before the transaction. */
  function Precheck(db: Db, g: ConvId, change: Change): Option<GroupError> {
    match change
    case AddMembers(us) => if us == [] then Some(BadTarget) else None
    case RemoveMember(target) =>
      if g !in db.groups then Some(NotFound)
      else if db.groups[g].owner == target then Some(BadTarget)
      else None
    case Rename(name) => if name == "" then Some(BadTarget) else None
    case _ => None
  }

  function Manage(db: Db, g: ConvId, operator: Uid, change: Change, note: Content, draw: nat): GroupOut {
    if Precheck(db, g, change).Some? then Refused(Precheck(db, g, change).value)
    else if g !in db.groups then Refused(NotFound)
    else if db.groups[g].status == Dismissed then Refused(GroupDismissed)
    else if db.groups[g].owner != operator then Refused(NotOwner)
    else
      match ApplyChange(db, g, change)
      case Rejected(e) => Refused(e)
      case Done(d) => InsertEvent(d, g, operator, note, draw)
  }

  // ---------------------------------------------------------------- leaving

  function Quit(db: Db, g: ConvId, u: Uid, note: Content, draw: nat): GroupOut {
    var ms := Roster(db, g);
    if g !in db.groups || u !in ActiveUids(ms) then Refused(NotFound)
    else if db.groups[g].status == Dismissed then Refused(GroupDismissed)
    else if ActiveRole(ms, u) == Some(Owner) then Refused(OwnerCantQuit)
    else
      InsertEvent(
        Recount(db.(roster := db.roster[g := MarkLeft(ms, u)], convMembers := db.convMembers - {(g, u)}), g),
        g, u, note, draw)
  }
}
