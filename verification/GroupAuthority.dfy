// Who may do what to a group: exactly when each group transaction succeeds, what it changes, and that
// over every run nobody but the owner changes a group's settings or another member's row.
module GroupAuthority {
  import opened Wrappers
  import opened Chat
  import opened Tables
  import opened PersistSpec
  import opened PersistInvariants
  import opened BatchSpec
  import opened GroupSpec
  import opened GroupInvariants
  import opened GroupRuns
  import opened ChatRuns

  // ---------------------------------------------------------------- rows of group_members

  /** The user has a row in which left_at is not set. */
  predicate InGroup(ms: seq<Member>, u: Uid) {
    exists k :: 0 <= k < |ms| && ms[k].uid == u && !ms[k].left
  }

  /** SELECT count(*) ... WHERE left_at IS NULL */
  function JoinedRows(ms: seq<Member>): set<nat> {
    set k: nat | k < |ms| && !ms[k].left
  }

  /** The places of a list of uids that name nobody who is in the group. */
  function Outsiders(ms: seq<Member>, us: seq<Uid>): set<nat> {
    set k: nat | k < |us| && !InGroup(ms, us[k])
  }

  lemma {:induction false} ActiveIsJoined(ms: seq<Member>, u: Uid)
    ensures u in ActiveUids(ms) <==> InGroup(ms, u)
  {
    if ms != [] {
      var n := |ms| - 1;
      ActiveIsJoined(ms[..n], u);
      assert InGroup(ms, u) <==> InGroup(ms[..n], u) || (ms[n].uid == u && !ms[n].left) by {
        if InGroup(ms[..n], u) {
          var k :| 0 <= k < n && ms[..n][k].uid == u && !ms[..n][k].left;
          assert ms[k].uid == u;
        }
      }
    }
  }

  lemma {:induction false} ActiveAreCounted(ms: seq<Member>)
    ensures |ActiveUids(ms)| == |JoinedRows(ms)|
  {
    if ms != [] {
      var n := |ms| - 1;
      ActiveAreCounted(ms[..n]);
      assert JoinedRows(ms) == JoinedRows(ms[..n]) + if ms[n].left then {} else {n};
    }
  }

  lemma {:induction false} NewcomersAreCounted(ms: seq<Member>, us: seq<Uid>)
    ensures |Newcomers(ms, us)| == |Outsiders(ms, us)|
  {
    hide InGroup, ActiveUids;
    if us != [] {
      var n := |us| - 1;
      NewcomersAreCounted(ms, us[..n]);
      ActiveIsJoined(ms, us[n]);
      assert Outsiders(ms, us) == Outsiders(ms, us[..n]) + if InGroup(ms, us[n]) then {} else {n};
    }
  }

  // ---------------------------------------------------------------- when an owner's operation succeeds

  /** What the change itself demands. */
  predicate Feasible(db: Db, g: ConvId, change: Change)
    requires g in db.groups
  {
    match change
    case AddMembers(us) => us != [] && |JoinedRows(Roster(db, g))| + |Outsiders(Roster(db, g), us)| <= 500
    case RemoveMember(target) => InGroup(Roster(db, g), target) && target != db.groups[g].owner
    case Rename(name) => name != ""
    case _ => true
  }

  /** The random event id is new and the next number of the group is not taken. */
  predicate EventFits(db: Db, g: ConvId, draw: nat) {
    Drawn(draw) !in db.messages && !Numbered(db, g, Counter(db, g) + 1)
  }

  lemma ChangeIsFeasible(db: Db, g: ConvId, change: Change)
    requires g in db.groups
    ensures Feasible(db, g, change) <==> Precheck(db, g, change).None? && ApplyChange(db, g, change).Done?
    ensures ApplyChange(db, g, change).Done? ==>
      var d := ApplyChange(db, g, change).db; d.messages == db.messages && d.counters == db.counters
  {
    var ms := Roster(db, g);
    ActiveAreCounted(ms);
    match change
    case AddMembers(us) => NewcomersAreCounted(ms, us);
    case RemoveMember(target) => ActiveIsJoined(ms, target);
    case _ =>
  }

  lemma SameEvent(db: Db, d: Db, g: ConvId, draw: nat)
    requires d.messages == db.messages && d.counters == db.counters
    ensures EventFits(d, g, draw) <==> EventFits(db, g, draw)
  {
  }

  lemma EventOk(db: Db, g: ConvId, actor: Uid, note: Content, draw: nat)
    ensures InsertEvent(db, g, actor, note, draw) ==
      if EventFits(db, g, draw) then Ok(Append(db, Drawn(draw), g, actor, SystemEvent, note), Drawn(draw))
      else Refused(Violated)
  {
  }

  /** An owner's operation succeeds exactly when the group is there and not dismissed, the operator is
      its owner, the change is feasible and the event can be written. */
  lemma ManageSucceeds(db: Db, g: ConvId, operator: Uid, change: Change, note: Content, draw: nat)
    ensures Manage(db, g, operator, change, note, draw).Ok? <==>
      && g in db.groups && db.groups[g].status == GroupStatus.Active && db.groups[g].owner == operator
      && Feasible(db, g, change) && EventFits(db, g, draw)
  {
    if g in db.groups {
      ChangeIsFeasible(db, g, change);
      if ApplyChange(db, g, change).Done? {
        var d := ApplyChange(db, g, change).db;
        SameEvent(db, d, g, draw);
        EventOk(d, g, operator, note, draw);
      }
    }
    hide Feasible, ApplyChange, EventFits, InsertEvent;
  }

  /** A list or a name that is refused before the group is looked at. */
  predicate Blank(change: Change) {
    change == AddMembers([]) || change == Rename("")
  }

  /** The group is there and alive and asked by its owner. */
  predicate OwnerAsks(db: Db, g: ConvId, operator: Uid) {
    g in db.groups && db.groups[g].status == GroupStatus.Active && db.groups[g].owner == operator
  }

  /** Every refusal has its one reason. */
  lemma ManageRefuses(db: Db, g: ConvId, operator: Uid, change: Change, note: Content, draw: nat)
    ensures var r := Manage(db, g, operator, change, note, draw);
      var sound := !Blank(change) && !(g in db.groups && change == RemoveMember(db.groups[g].owner));
      && (r == Refused(NotFound) <==> g !in db.groups && sound)
      && (r == Refused(GroupDismissed) <==> g in db.groups && db.groups[g].status == Dismissed && sound)
      && (r == Refused(NotOwner) <==>
            g in db.groups && db.groups[g].status == GroupStatus.Active && db.groups[g].owner != operator && sound)
      && (r == Refused(BadTarget) <==>
            !sound || (OwnerAsks(db, g, operator) && change.RemoveMember? && !InGroup(Roster(db, g), change.target)))
      && (r == Refused(GroupFull) <==>
            && OwnerAsks(db, g, operator) && sound && change.AddMembers?
            && |JoinedRows(Roster(db, g))| + |Outsiders(Roster(db, g), change.uids)| > 500)
      && (r == Refused(Violated) <==>
            OwnerAsks(db, g, operator) && Feasible(db, g, change) && !EventFits(db, g, draw))
  {
    if g in db.groups {
      ChangeIsFeasible(db, g, change);
      Rejections(db, g, change);
      if ApplyChange(db, g, change).Done? {
        var d := ApplyChange(db, g, change).db;
        SameEvent(db, d, g, draw);
        EventOk(d, g, operator, note, draw);
      }
    }
    hide Feasible, ApplyChange, EventFits, InsertEvent, InGroup, JoinedRows, Outsiders;
  }

  lemma Rejections(db: Db, g: ConvId, change: Change)
    requires g in db.groups
    ensures var r := ApplyChange(db, g, change);
      && (r == Rejected(BadTarget) <==> change.RemoveMember? && !InGroup(Roster(db, g), change.target))
      && (r == Rejected(GroupFull) <==>
            change.AddMembers? && |JoinedRows(Roster(db, g))| + |Outsiders(Roster(db, g), change.uids)| > 500)
      && (r.Rejected? ==> r.error in {BadTarget, GroupFull})
  {
    var ms := Roster(db, g);
    ActiveAreCounted(ms);
    match change
    case AddMembers(us) => NewcomersAreCounted(ms, us);
    case RemoveMember(target) => ActiveIsJoined(ms, target);
    case _ =>
  }

  // ---------------------------------------------------------------- what it changes

  /** The row of the group afterwards, column by column. */
  predicate SettingsAfter(before: GroupRow, after: GroupRow, change: Change) {
    && after.owner == before.owner
    && after.name == (if change.Rename? then change.name else before.name)
    && after.announcement == (if change.SetAnnouncement? then change.text else before.announcement)
    && after.pinned == (if !change.SetPin? then before.pinned else if change.id == NoId then None else Some(change.id))
    && after.status == (if change.Dismiss? then Dismissed else before.status)
  }

  /** The rows of the members afterwards: who is brought in keeps the role of an old row, who is removed
      keeps his row with left_at set, and nobody else's row changes. */
  predicate MembersAfter(before: seq<Member>, after: seq<Member>, change: Change, m: Member) {
    match change
    case AddMembers(us) =>
      if m.uid in us && !InGroup(before, m.uid) then
        m in after <==>
        !m.left && (if HasRow(before, m.uid) then Member(m.uid, m.role, true) in before else m.role == Ordinary)
      else m in after <==> m in before
    case RemoveMember(target) =>
      if m.uid == target then m in after <==> m.left && HasRoleRow(before, target, m.role)
      else m in after <==> m in before
    case _ => m in after <==> m in before
  }

  predicate HasRow(ms: seq<Member>, u: Uid) {
    exists k :: 0 <= k < |ms| && ms[k].uid == u
  }

  predicate HasRoleRow(ms: seq<Member>, u: Uid, role: Role) {
    Member(u, role, true) in ms || Member(u, role, false) in ms
  }

  /** Under the primary key a row is what the look-up finds. */
  lemma {:induction false} RowIsFound(ms: seq<Member>, m: Member)
    requires Keyed(ms)
    ensures m in ms <==> FindMember(ms, m.uid) == Some(m)
  {
    if ms != [] {
      var k := |ms| - 1;
      RowIsFound(ms[..k], m);
      assert ms == ms[..k] + [ms[k]];
    }
  }

  lemma {:induction false} HasRowIsFound(ms: seq<Member>, u: Uid)
    ensures HasRow(ms, u) <==> FindMember(ms, u).Some?
  {
    if ms != [] {
      var n := |ms| - 1;
      HasRowIsFound(ms[..n], u);
      if HasRow(ms[..n], u) {
        var k :| 0 <= k < n && ms[..n][k].uid == u;
        assert ms[k].uid == u;
      }
      assert HasRow(ms, u) <==> HasRow(ms[..n], u) || ms[n].uid == u;
    }
  }

  lemma {:induction false} JoinedRowsAfter(ms: seq<Member>, us: seq<Uid>, m: Member)
    requires Keyed(ms)
    ensures MembersAfter(ms, RejoinAll(ms, Newcomers(ms, us)), AddMembers(us), m)
  {
    hide RejoinAll, Newcomers, Keyed, ActiveUids, FindMember, InGroup, HasRow;
    var after := RejoinAll(ms, Newcomers(ms, us));
    JoinAt(ms, us, m.uid);
    RowIsFound(ms, m);
    RowIsFound(after, m);
    RowIsFound(ms, Member(m.uid, m.role, true));
    HasRowIsFound(ms, m.uid);
    ActiveIsJoined(ms, m.uid);
    FoundIsNamed(ms, m.uid);
  }

  lemma {:induction false} LeftRowsAfter(ms: seq<Member>, u: Uid, m: Member)
    requires Keyed(ms)
    ensures MembersAfter(ms, MarkLeft(ms, u), RemoveMember(u), m)
  {
    hide MarkLeft, Keyed, ActiveUids, FindMember, InGroup, HasRow;
    MarkLeftFacts(ms, u, m.uid);
    RowIsFound(ms, m);
    RowIsFound(MarkLeft(ms, u), m);
    RowIsFound(ms, Member(u, m.role, true));
    RowIsFound(ms, Member(u, m.role, false));
    FoundIsNamed(ms, u);
  }

  lemma ChangeSettles(db: Db, g: ConvId, change: Change, x: ConvId)
    requires g in db.groups && ApplyChange(db, g, change).Done?
    ensures var d := ApplyChange(db, g, change).db;
      && d.groups.Keys == db.groups.Keys && SettingsAfter(db.groups[g], d.groups[g], change)
      && d.groups[g].memberCount ==
           (if change.AddMembers? || change.RemoveMember? then |JoinedRows(Roster(d, g))| else db.groups[g].memberCount)
      && (x != g && x in db.groups ==> d.groups[x] == db.groups[x] && Roster(d, x) == Roster(db, x))
  {
    hide RejoinAll, Newcomers, MarkLeft, ActiveUids, JoinedRows;
    ActiveAreCounted(Roster(ApplyChange(db, g, change).db, g));
  }

  lemma ChangeMoves(db: Db, g: ConvId, change: Change, m: Member)
    requires g in db.groups && Keyed(Roster(db, g)) && ApplyChange(db, g, change).Done?
    ensures MembersAfter(Roster(db, g), Roster(ApplyChange(db, g, change).db, g), change, m)
  {
    hide RejoinAll, Newcomers, MarkLeft, ActiveUids, MembersAfter, FindMember, Keyed;
    var ms := Roster(db, g);
    match change
    case AddMembers(us) => JoinedRowsAfter(ms, us, m);
    case RemoveMember(target) => LeftRowsAfter(ms, target, m);
    case _ => SameRows(ms, change, m);
  }

  lemma SameRows(ms: seq<Member>, change: Change, m: Member)
    requires !change.AddMembers? && !change.RemoveMember?
    ensures MembersAfter(ms, ms, change, m)
  {
  }

  /** A successful owner's operation: every column of the group's row, every row of its members, the
      count, and all other groups untouched. */
  lemma ManageChanges(db: Db, g: ConvId, operator: Uid, change: Change, note: Content, draw: nat, m: Member, x: ConvId)
    requires GroupInv(db) && Manage(db, g, operator, change, note, draw).Ok?
    ensures var d := Manage(db, g, operator, change, note, draw).db;
      && g in db.groups && g in d.groups && d.groups.Keys == db.groups.Keys
      && SettingsAfter(db.groups[g], d.groups[g], change)
      && MembersAfter(Roster(db, g), Roster(d, g), change, m)
      && d.groups[g].memberCount ==
           (if change.AddMembers? || change.RemoveMember? then |JoinedRows(Roster(d, g))| else db.groups[g].memberCount)
      && (x != g && x in db.groups ==> d.groups[x] == db.groups[x] && Roster(d, x) == Roster(db, x))
  {
    assert GroupOk(db, g);
    hide InsertEvent, ApplyChange, GroupOk, GroupInv, MembersAfter, JoinedRows, SettingsAfter, Keyed;
    EventLeavesGroups(ApplyChange(db, g, change).db, g, operator, note, draw);
    ChangeSettles(db, g, change, x);
    ChangeMoves(db, g, change, m);
  }

  lemma {:induction false} WithoutInactive(ms: seq<Member>, u: Uid)
    requires u !in ActiveUids(ms)
    ensures ActiveUids(WithoutMember(ms, u)) == ActiveUids(ms)
  {
    if ms != [] {
      var k := |ms| - 1;
      WithoutInactive(ms[..k], u);
      var init := WithoutMember(ms[..k], u);
      assert ms[k].uid != u ==> WithoutMember(ms, u)[..|init|] == init;
      assert ms[k].uid == u ==> WithoutMember(ms, u) == init;
    }
  }

  lemma {:induction false} RejoinsLast(ms: seq<Member>, u: Uid)
    requires u !in ActiveUids(ms)
    ensures ActiveUids(Rejoin(ms, u)) == ActiveUids(ms) + [u]
  {
    WithoutInactive(ms, u);
    FoundIsNamed(ms, u);
    var init := if FindMember(ms, u).None? then ms else WithoutMember(ms, u);
    assert Rejoin(ms, u)[..|init|] == init;
  }

  lemma {:induction false} RejoinedInOrder(ms: seq<Member>, us: seq<Uid>)
    requires !HasDuplicates(us) && forall u :: u in us ==> u !in ActiveUids(ms)
    ensures ActiveUids(RejoinAll(ms, us)) == ActiveUids(ms) + us
  {
    hide Rejoin, ActiveUids;
    if us != [] {
      var k := |us| - 1;
      assert us == us[..k] + [us[k]];
      DuplicatesOneMore(us[..k], us[k]);
      hide HasDuplicates;
      RejoinedInOrder(ms, us[..k]);
      RejoinsLast(RejoinAll(ms, us[..k]), us[k]);
    }
  }

  /** The list of active members is in the order of joining: who joins, or joins again, comes behind
      everybody else. */
  lemma JoinersComeLast(db: Db, g: ConvId, us: seq<Uid>)
    requires g in db.groups && ApplyChange(db, g, AddMembers(us)).Done?
    requires !HasDuplicates(us) && forall u :: u in us ==> !InGroup(Roster(db, g), u)
    ensures ActiveUids(Roster(ApplyChange(db, g, AddMembers(us)).db, g)) == ActiveUids(Roster(db, g)) + us
  {
    hide ActiveUids, RejoinAll, HasDuplicates, InGroup, Newcomers;
    var ms := Roster(db, g);
    forall u | u in us {
      ActiveIsJoined(ms, u);
    }
    AllAreNewcomers(ms, us);
    RejoinedInOrder(ms, us);
  }

  lemma {:induction false} AllAreNewcomers(ms: seq<Member>, us: seq<Uid>)
    requires forall u :: u in us ==> u !in ActiveUids(ms)
    ensures Newcomers(ms, us) == us
  {
    if us != [] {
      AllAreNewcomers(ms, us[..|us| - 1]);
    }
  }

  // ---------------------------------------------------------------- leaving

  lemma {:induction false} OwnerIsOwner(db: Db, g: ConvId, u: Uid)
    requires GroupInv(db) && g in db.groups
    ensures ActiveRole(Roster(db, g), u) == Some(Owner) <==> u == db.groups[g].owner
  {
    hide ActiveRole;
    OwnerRules(db, g, u);
  }

  /** A member leaves exactly when the group is alive, he is in it and is not its owner, and the event
      can be written; and every refusal has its one reason. */
  lemma QuitSucceeds(db: Db, g: ConvId, u: Uid, note: Content, draw: nat)
    requires GroupInv(db)
    ensures var r, inside := Quit(db, g, u, note, draw), g in db.groups && InGroup(Roster(db, g), u);
      && (r.Ok? <==>
            && inside && db.groups[g].status == GroupStatus.Active && u != db.groups[g].owner && EventFits(db, g, draw))
      && (r == Refused(NotFound) <==> !inside)
      && (r == Refused(GroupDismissed) <==> inside && db.groups[g].status == Dismissed)
      && (r == Refused(OwnerCantQuit) <==>
            inside && db.groups[g].status == GroupStatus.Active && u == db.groups[g].owner)
  {
    hide MarkLeft, ActiveUids, ActiveRole, InGroup, EventFits, InsertEvent, GroupInv;
    ActiveIsJoined(Roster(db, g), u);
    if g in db.groups {
      OwnerIsOwner(db, g, u);
      SameEvent(db, Left(db, g, u), g, draw);
      EventOk(Left(db, g, u), g, u, note, draw);
    }
  }

  /** Leaving changes nothing but the leaver's row and the count. */
  lemma QuitChanges(db: Db, g: ConvId, u: Uid, note: Content, draw: nat, m: Member, x: ConvId)
    requires GroupInv(db) && Quit(db, g, u, note, draw).Ok?
    ensures var d := Quit(db, g, u, note, draw).db;
      && g in db.groups && d.groups.Keys == db.groups.Keys
      && SettingsAfter(db.groups[g], d.groups[g], RemoveMember(u))
      && MembersAfter(Roster(db, g), Roster(d, g), RemoveMember(u), m)
      && d.groups[g].memberCount == |JoinedRows(Roster(d, g))|
      && (x != g && x in db.groups ==> d.groups[x] == db.groups[x] && Roster(d, x) == Roster(db, x))
  {
    hide InsertEvent, ActiveRole, MarkLeft, ActiveUids, GroupOk, MembersAfter, JoinedRows, Keyed;
    QuitIsLeft(db, g, u, note, draw);
    EventLeavesGroups(Left(db, g, u), g, u, note, draw);
    assert Keyed(Roster(db, g)) by { GroupIsKeyed(db, g); }
    LeftRowsAfter(Roster(db, g), u, m);
    ActiveAreCounted(Roster(Left(db, g, u), g));
  }

  lemma GroupIsKeyed(db: Db, g: ConvId)
    requires GroupInv(db) && g in db.groups
    ensures Keyed(Roster(db, g))
  {
    assert GroupOk(db, g);
  }

  // ---------------------------------------------------------------- creation

  /** Somebody other than the owner is listed twice. */
  predicate ListedTwice(owner: Uid, members: seq<Uid>) {
    exists i, j :: 0 <= i < j < |members| && members[i] == members[j] && members[i] != owner
  }

  lemma {:induction false} DuplicatesAreListed(owner: Uid, members: seq<Uid>)
    ensures HasDuplicates(OwnerFirst(owner, members)) <==> ListedTwice(owner, members)
  {
    if members == [] {
      assert |OwnerFirst(owner, members)| == 1;
    } else {
      var n := |members| - 1;
      var u, before, all := members[n], OwnerFirst(owner, members[..n]), OwnerFirst(owner, members);
      DuplicatesAreListed(owner, members[..n]);
      OwnerFirstFacts(owner, members[..n], u);
      hide OwnerFirst;
      assert ListedTwice(owner, members) <==> ListedTwice(owner, members[..n]) || (u != owner && u in members[..n]) by {
        ListedOneMore(owner, members);
      }
      if u != owner {
        assert all == before + [u] by { OwnerFirstMore(owner, members); }
        DuplicatesOneMore(before, u);
      } else {
        assert all == before by { OwnerFirstMore(owner, members); }
      }
    }
  }

  lemma {:induction false} OwnerFirstMore(owner: Uid, members: seq<Uid>)
    requires members != []
    ensures var n := |members| - 1;
      OwnerFirst(owner, members) == OwnerFirst(owner, members[..n]) + if members[n] == owner then [] else [members[n]]
  {
  }

  lemma ListedOneMore(owner: Uid, members: seq<Uid>)
    requires members != []
    ensures var n := |members| - 1;
      ListedTwice(owner, members) <==>
      ListedTwice(owner, members[..n]) || (members[n] != owner && members[n] in members[..n])
  {
    var n := |members| - 1;
    if ListedTwice(owner, members[..n]) {
      var i, j :| 0 <= i < j < n && members[..n][i] == members[..n][j] && members[..n][i] != owner;
      assert members[i] == members[j];
    }
    if members[n] in members[..n] {
      var i :| 0 <= i < n && members[..n][i] == members[n];
      assert members[i] == members[n];
    }
    if ListedTwice(owner, members) {
      var i, j :| 0 <= i < j < |members| && members[i] == members[j] && members[i] != owner;
      if j < n {
        assert members[..n][i] == members[..n][j];
      } else {
        assert members[..n][i] == members[n];
      }
    }
  }

  lemma DuplicatesOneMore(us: seq<Uid>, u: Uid)
    ensures HasDuplicates(us + [u]) <==> HasDuplicates(us) || u in us
  {
    var all := us + [u];
    if HasDuplicates(us) {
      var i, j :| 0 <= i < j < |us| && us[i] == us[j];
      assert all[i] == all[j];
    }
    if u in us {
      var i :| 0 <= i < |us| && us[i] == u;
      assert all[i] == all[|us|];
    }
    if HasDuplicates(all) {
      var i, j :| 0 <= i < j < |all| && all[i] == all[j];
      if j < |us| {
        assert us[i] == us[j];
      }
    }
  }

  /** A group is created exactly when owner and name are given, the id names no group, no member list
      and no conversation yet, nobody but the owner is listed twice, and the event can be written. */
  lemma CreateSucceeds(db: Db, g: ConvId, owner: Uid, name: string, members: seq<Uid>, note: Content, draw: nat)
    ensures var r := CreateGroup(db, g, owner, name, members, note, draw);
      && (r.Ok? <==>
            && owner != "" && name != "" && g !in db.groups && g !in db.roster && g !in db.convs
            && !ListedTwice(owner, members) && EventFits(db, g, draw))
      && (r.Refused? ==> r.error == if owner == "" || name == "" then BadTarget else Violated)
  {
    hide OwnerFirst, HasDuplicates, InsertEvent, EventFits, NewRoster;
    DuplicatesAreListed(owner, members);
    var d := CreatedTables(db, g, owner, name, members);
    SameEvent(db, d, g, draw);
    EventOk(d, g, owner, note, draw);
  }

  /** What it creates: the row of the group, one row for the owner and one for everybody else listed,
      and the conversation with the same members, the owner first. */
  lemma CreateWrites(db: Db, g: ConvId, owner: Uid, name: string, members: seq<Uid>, note: Content, draw: nat, u: Uid,
                     m: Member)
    requires AllInv(db) && CreateGroup(db, g, owner, name, members, note, draw).Ok?
    ensures var d := CreateGroup(db, g, owner, name, members, note, draw).db;
      && g in d.groups && d.groups[g] == GroupRow(name, "", owner, None, GroupStatus.Active, |members| + 1)
      && (m in Roster(d, g) <==>
            !m.left && (m.uid == owner || m.uid in members) && m.role == (if m.uid == owner then Owner else Ordinary))
      && g in d.convs && d.convs[g].isGroup && d.convs[g].members != [] && d.convs[g].members[0] == owner
      && (u in d.convs[g].members <==> u == owner || u in members)
      && (owner !in members ==> d.convs[g].members == [owner] + members)
      && ((g, u) in d.convMembers <==> u == owner || u in members)
  {
    hide *;
    var t := CreatedTables(db, g, owner, name, members);
    CreatedIsInserted(db, g, owner, name, members, note, draw);
    CreatedRows(db, g, owner, name, members);
    EventLeavesGroups(t, g, owner, note, draw);
    EventKeepsLists(t, g, owner, note, draw);
    OwnerFirstFacts(owner, members, u);
    OwnerFirstFacts(owner, members, m.uid);
    OwnerThenOthers(owner, members);
    NewRosterRows(owner, OwnerFirst(owner, members), m);
    EmptyGroup(db, g, u);
    SameRoster(t, CreateGroup(db, g, owner, name, members, note, draw).db, g);
  }

  lemma {:induction false} OwnerThenOthers(owner: Uid, members: seq<Uid>)
    ensures owner !in members ==> OwnerFirst(owner, members) == [owner] + members
  {
    if members != [] {
      var k := |members| - 1;
      OwnerThenOthers(owner, members[..k]);
      assert members == members[..k] + [members[k]];
    }
  }

  lemma SameRoster(t: Db, d: Db, g: ConvId)
    requires d.roster == t.roster
    ensures Roster(d, g) == Roster(t, g)
  {
  }

  lemma EmptyGroup(db: Db, g: ConvId, u: Uid)
    requires AllInv(db)
    ensures g !in db.convs ==> (g, u) !in db.convMembers
  {
    hide Inv, GroupOk;
  }

  lemma CreatedIsInserted(db: Db, g: ConvId, owner: Uid, name: string, members: seq<Uid>, note: Content, draw: nat)
    requires CreateGroup(db, g, owner, name, members, note, draw).Ok?
    ensures g !in db.convs && g !in db.groups
    ensures CreateGroup(db, g, owner, name, members, note, draw)
            == InsertEvent(CreatedTables(db, g, owner, name, members), g, owner, note, draw)
  {
    hide InsertEvent, OwnerFirst, NewRoster, HasDuplicates;
  }

  lemma EventKeepsLists(t: Db, g: ConvId, owner: Uid, note: Content, draw: nat)
    requires InsertEvent(t, g, owner, note, draw).Ok? && g in t.convs
    ensures var d := InsertEvent(t, g, owner, note, draw).db;
      && g in d.convs && d.convs[g].isGroup == t.convs[g].isGroup && d.convs[g].members == t.convs[g].members
      && d.convMembers == t.convMembers
  {
    hide Numbered;
  }

  lemma {:induction false} CreatedRows(db: Db, g: ConvId, owner: Uid, name: string, members: seq<Uid>)
    ensures var t, all := CreatedTables(db, g, owner, name, members), OwnerFirst(owner, members);
      && g in t.groups && t.groups[g] == GroupRow(name, "", owner, None, GroupStatus.Active, |members| + 1)
      && Roster(t, g) == NewRoster(owner, all)
      && g in t.convs && t.convs[g] == Conversation(true, all, 0)
      && forall u :: (g, u) in t.convMembers <==> (g, u) in db.convMembers || u in all
  {
    hide OwnerFirst, NewRoster;
  }

  lemma {:induction false} NewRosterRows(owner: Uid, all: seq<Uid>, m: Member)
    ensures m in NewRoster(owner, all) <==>
      m.uid in all && m == Member(m.uid, if m.uid == owner then Owner else Ordinary, false)
  {
    if all != [] {
      var k := |all| - 1;
      NewRosterRows(owner, all[..k], m);
      assert all == all[..k] + [all[k]];
    }
  }

  // ---------------------------------------------------------------- nobody but the owner

  /** Name, announcement, pin, status and owner. */
  predicate SameSettings(a: GroupRow, b: GroupRow) {
    && b.name == a.name && b.announcement == a.announcement && b.pinned == a.pinned
    && b.status == a.status && b.owner == a.owner
  }

  ghost predicate SameMemberRows(a: seq<Member>, b: seq<Member>, u: Uid) {
    forall m: Member :: m.uid == u ==> (m in a <==> m in b)
  }

  /** A step of the group's owner; a step by which the user himself leaves. */
  predicate ByOwner(db: Db, s: Step, g: ConvId)
    requires g in db.groups
  {
    s.Govern? && s.g == g && s.operator == db.groups[g].owner
  }

  predicate ByLeaver(s: Step, g: ConvId, u: Uid) {
    s.Leave? && s.g == g && s.u == u
  }

  /** The settings of the group are as before, and so are the user's rows unless he leaves. */
  ghost predicate Untouched(db: Db, d: Db, g: ConvId, u: Uid, leaves: bool)
    requires g in db.groups
  {
    && g in d.groups && SameSettings(db.groups[g], d.groups[g])
    && (!leaves ==> SameMemberRows(Roster(db, g), Roster(d, g), u))
  }

  lemma SameGroupUntouched(db: Db, d: Db, g: ConvId, u: Uid, leaves: bool)
    requires SameGroup(db, d, g)
    ensures Untouched(db, d, g, u, leaves)
  {
  }

  lemma GovernTouchesOther(db: Db, s: Step, g: ConvId, u: Uid)
    requires AllInv(db) && g in db.groups && s.Govern? && !ByOwner(db, s, g)
    ensures SameGroup(db, Perform(db, s), g)
  {
    hide Manage, AllInv;
    ManageSucceeds(db, s.g, s.operator, s.change, s.note, s.draw);
    if Manage(db, s.g, s.operator, s.change, s.note, s.draw).Ok? {
      AllHasGroups(db);
      ManageChanges(db, s.g, s.operator, s.change, s.note, s.draw, Member("", Owner, false), g);
    }
  }

  lemma QuitKeepsRows(db: Db, g: ConvId, v: Uid, note: Content, draw: nat, u: Uid)
    requires GroupInv(db) && Quit(db, g, v, note, draw).Ok? && u != v
    ensures SameMemberRows(Roster(db, g), Roster(Quit(db, g, v, note, draw).db, g), u)
  {
    hide Quit, GroupInv, Roster, HasRoleRow, SettingsAfter;
    var d := Quit(db, g, v, note, draw).db;
    forall m: Member | m.uid == u
      ensures m in Roster(db, g) <==> m in Roster(d, g)
    {
      QuitChanges(db, g, v, note, draw, m, g);
    }
  }

  lemma LeaveTouchesLeaver(db: Db, s: Step, g: ConvId, u: Uid)
    requires AllInv(db) && g in db.groups && s.Leave?
    ensures Untouched(db, Perform(db, s), g, u, ByLeaver(s, g, u))
  {
    hide Quit, AllInv, GroupInv, SameMemberRows, MembersAfter;
    AllHasGroups(db);
    if Quit(db, s.g, s.u, s.note, s.draw).Ok? {
      QuitChanges(db, s.g, s.u, s.note, s.draw, Member("", Owner, false), g);
      if s.g == g && s.u != u {
        QuitKeepsRows(db, g, s.u, s.note, s.draw, u);
      }
      if s.g != g {
        SameGroupUntouched(db, Perform(db, s), g, u, ByLeaver(s, g, u));
      }
    } else {
      SameGroupUntouched(db, db, g, u, ByLeaver(s, g, u));
    }
  }

  lemma CreateTouchesOther(db: Db, s: Step, g: ConvId)
    requires g in db.groups && s.Create?
    ensures SameGroup(db, Perform(db, s), g)
  {
    hide InsertEvent, NewRoster, OwnerFirst, HasDuplicates;
    if CreateGroup(db, s.g, s.owner, s.name, s.members, s.note, s.draw).Ok? {
      CreatedIsInserted(db, s.g, s.owner, s.name, s.members, s.note, s.draw);
      EventLeavesGroups(CreatedTables(db, s.g, s.owner, s.name, s.members), s.g, s.owner, s.note, s.draw);
    }
  }

  /** No step that is not the owner's changes the name, the announcement, the pin, the status or the
      owner of a group, or any row of a member but the one who leaves. */
  lemma StepLeavesGroup(db: Db, s: Step, g: ConvId, u: Uid)
    requires AllInv(db) && g in db.groups && !ByOwner(db, s, g)
    ensures Untouched(db, Perform(db, s), g, u, ByLeaver(s, g, u))
  {
    hide AllInv, Handle, HandleBatch, CreateGroup, Manage, Quit, ByOwner, Untouched;
    match s {
      case Frame(m) => HandleGrows(db, m);
      case Batch(ms) => BatchLeavesGroups(db, ms);
      case Create(_, _, _, _, _, _) => CreateTouchesOther(db, s, g);
      case Govern(_, _, _, _, _) => GovernTouchesOther(db, s, g, u);
      case Leave(_, _, _, _) => LeaveTouchesLeaver(db, s, g, u);
      case _ =>
    }
    if !s.Leave? {
      SameGroupUntouched(db, Perform(db, s), g, u, ByLeaver(s, g, u));
    }
  }

  lemma UntouchedTransitive(a: Db, b: Db, c: Db, g: ConvId, u: Uid, p: bool, q: bool)
    requires g in a.groups && Untouched(a, b, g, u, p) && Untouched(b, c, g, u, q)
    ensures Untouched(a, c, g, u, p || q)
  {
    hide Roster;
  }

  predicate NoneByOwner(steps: seq<Step>, g: ConvId, owner: Uid) {
    forall s :: s in steps && s.Govern? && s.g == g ==> s.operator != owner
  }

  predicate SomeByLeaver(steps: seq<Step>, g: ConvId, u: Uid) {
    exists s :: s in steps && ByLeaver(s, g, u)
  }

  /** Over every run in which the owner of a group orders nothing in it, its name, announcement, pin,
      status and owner stay what they are, and so do the rows of everybody who does not leave. */
  lemma {:induction false} OnlyTheOwnerGoverns(db: Db, steps: seq<Step>, g: ConvId, u: Uid)
    requires AllInv(db) && LawfulRun(db, steps) && g in db.groups && NoneByOwner(steps, g, db.groups[g].owner)
    ensures Untouched(db, Run(db, steps), g, u, SomeByLeaver(steps, g, u)) && AllInv(Run(db, steps))
  {
    hide AllInv, Lawful, Perform, SameMemberRows;
    if steps == [] {
      SameGroupUntouched(db, db, g, u, SomeByLeaver(steps, g, u));
    } else {
      var k := |steps| - 1;
      var d, s := Run(db, steps[..k]), steps[k];
      assert steps == steps[..k] + [s];
      OnlyTheOwnerGoverns(db, steps[..k], g, u);
      assert !ByOwner(d, s, g);
      StepLeavesGroup(d, s, g, u);
      StepKeepsInv(d, s);
      assert SomeByLeaver(steps, g, u) <==> SomeByLeaver(steps[..k], g, u) || ByLeaver(s, g, u);
      UntouchedTransitive(db, d, Perform(d, s), g, u, SomeByLeaver(steps[..k], g, u), ByLeaver(s, g, u));
    }
  }
}
