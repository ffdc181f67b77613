// What every group transaction keeps.
module GroupInvariants {
  import opened Wrappers
  import opened Chat
  import opened Tables
  import opened PersistSpec
  import opened PersistInvariants
  import opened GroupSpec

  // ---------------------------------------------------------------- rosters

  /** The primary key (gid, uid). */
  predicate Keyed(ms: seq<Member>) {
    ms == [] || (FindMember(ms[..|ms| - 1], ms[|ms| - 1].uid) == None && Keyed(ms[..|ms| - 1]))
  }

  predicate IsActive(ms: seq<Member>, u: Uid) {
    FindMember(ms, u).Some? && !FindMember(ms, u).value.left
  }

  lemma {:induction false} FoundIsNamed(ms: seq<Member>, u: Uid)
    ensures FindMember(ms, u).Some? ==> FindMember(ms, u).value.uid == u
  {
    if ms != [] {
      FoundIsNamed(ms[..|ms| - 1], u);
    }
  }

  lemma {:induction false} ActiveMeans(ms: seq<Member>, u: Uid)
    requires Keyed(ms)
    ensures u in ActiveUids(ms) <==> IsActive(ms, u)
    ensures ActiveRole(ms, u) == if IsActive(ms, u) then Some(FindMember(ms, u).value.role) else None
  {
    if ms != [] {
      var k := |ms| - 1;
      ActiveMeans(ms[..k], u);
    }
  }

  lemma {:induction false} FindWithout(ms: seq<Member>, u: Uid, v: Uid)
    ensures FindMember(WithoutMember(ms, u), v) == if v == u then None else FindMember(ms, v)
    ensures |ActiveUids(WithoutMember(ms, u))| <= |ActiveUids(ms)|
  {
    if ms != [] {
      var k := |ms| - 1;
      FindWithout(ms[..k], u, v);
      var init := WithoutMember(ms[..k], u);
      assert ms[k].uid != u ==> WithoutMember(ms, u)[..|init|] == init;
      assert ms[k].uid == u ==> WithoutMember(ms, u) == init;
    }
  }

  lemma {:induction false} WithoutKeyed(ms: seq<Member>, u: Uid)
    requires Keyed(ms)
    ensures Keyed(WithoutMember(ms, u))
  {
    if ms != [] {
      var k := |ms| - 1;
      WithoutKeyed(ms[..k], u);
      FindWithout(ms[..k], u, ms[k].uid);
      var init := WithoutMember(ms[..k], u);
      assert ms[k].uid != u ==> WithoutMember(ms, u)[..|init|] == init;
      assert ms[k].uid == u ==> WithoutMember(ms, u) == init;
    }
  }

  function RoleOf(ms: seq<Member>, u: Uid): Role {
    if FindMember(ms, u).Some? then FindMember(ms, u).value.role else Ordinary
  }

  lemma {:induction false} RejoinFacts(ms: seq<Member>, u: Uid, v: Uid)
    requires Keyed(ms)
    ensures Keyed(Rejoin(ms, u))
    ensures FindMember(Rejoin(ms, u), v) ==
      if v == u then Some(Member(u, RoleOf(ms, u), false)) else FindMember(ms, v)
    ensures |ActiveUids(Rejoin(ms, u))| <= |ActiveUids(ms)| + 1
  {
    FoundIsNamed(ms, u);
    FindWithout(ms, u, v);
    FindWithout(ms, u, u);
    WithoutKeyed(ms, u);
    var init := if FindMember(ms, u).None? then ms else WithoutMember(ms, u);
    assert Rejoin(ms, u)[..|init|] == init;
  }

  lemma {:induction false} RejoinAllFacts(ms: seq<Member>, us: seq<Uid>, v: Uid)
    requires Keyed(ms)
    ensures Keyed(RejoinAll(ms, us))
    ensures FindMember(RejoinAll(ms, us), v) ==
      if v in us then Some(Member(v, RoleOf(ms, v), false)) else FindMember(ms, v)
    ensures |ActiveUids(RejoinAll(ms, us))| <= |ActiveUids(ms)| + |us|
  {
    hide Rejoin, Keyed, ActiveUids, FindMember;
    if us != [] {
      var k := |us| - 1;
      RejoinAllFacts(ms, us[..k], v);
      RejoinAllFacts(ms, us[..k], us[k]);
      RejoinFacts(RejoinAll(ms, us[..k]), us[k], v);
      assert us == us[..k] + [us[k]];
    }
  }

  lemma {:induction false} MarkLeftFacts(ms: seq<Member>, u: Uid, v: Uid)
    requires Keyed(ms)
    ensures Keyed(MarkLeft(ms, u))
    ensures FindMember(MarkLeft(ms, u), v) ==
      if v == u && FindMember(ms, u).Some? then Some(FindMember(ms, u).value.(left := true)) else FindMember(ms, v)
  {
    if ms != [] {
      var k := |ms| - 1;
      MarkLeftFacts(ms[..k], u, v);
      MarkLeftFacts(ms[..k], u, ms[k].uid);
      assert MarkLeft(ms, u)[..k] == MarkLeft(ms[..k], u);
    }
  }

  lemma {:induction false} NewcomersFacts(ms: seq<Member>, us: seq<Uid>, u: Uid)
    ensures u in Newcomers(ms, us) <==> u in us && u !in ActiveUids(ms)
  {
    if us != [] {
      var k := |us| - 1;
      NewcomersFacts(ms, us[..k], u);
      assert us == us[..k] + [us[k]];
    }
  }

  lemma {:induction false} OwnerFirstFacts(owner: Uid, members: seq<Uid>, u: Uid)
    ensures OwnerFirst(owner, members) != [] && OwnerFirst(owner, members)[0] == owner
    ensures u in OwnerFirst(owner, members) <==> u == owner || u in members
    ensures owner !in members ==> |OwnerFirst(owner, members)| == |members| + 1
    ensures owner in members ==> |OwnerFirst(owner, members)| <= |members|
  {
    if members != [] {
      var k := |members| - 1;
      OwnerFirstFacts(owner, members[..k], u);
      assert members == members[..k] + [members[k]];
    }
  }

  lemma {:induction false} RosterOfPrefix(owner: Uid, all: seq<Uid>)
    requires all != [] && !HasDuplicates(all)
    ensures var k := |all| - 1;
      && !HasDuplicates(all[..k]) && all[k] !in all[..k]
      && NewRoster(owner, all) ==
           NewRoster(owner, all[..k]) + [Member(all[k], if all[k] == owner then Owner else Ordinary, false)]
  {
    var k := |all| - 1;
    forall i, j | 0 <= i < j < k
      ensures all[..k][i] != all[..k][j]
    {
      assert all[i] != all[j];
    }
    forall i | 0 <= i < k
      ensures all[..k][i] != all[k]
    {
      assert all[i] != all[k];
    }
  }

  lemma {:induction false} MemberSnoc(ms: seq<Member>, m: Member, u: Uid)
    requires !m.left
    ensures Keyed(ms + [m]) <==> Keyed(ms) && FindMember(ms, m.uid) == None
    ensures FindMember(ms + [m], u) == if m.uid == u then Some(m) else FindMember(ms, u)
    ensures ActiveUids(ms + [m]) == ActiveUids(ms) + [m.uid]
  {
    assert (ms + [m])[..|ms|] == ms;
  }

  lemma {:induction false} NewRosterFacts(owner: Uid, all: seq<Uid>, u: Uid)
    requires !HasDuplicates(all)
    ensures Keyed(NewRoster(owner, all))
    ensures FindMember(NewRoster(owner, all), u) ==
      if u in all then Some(Member(u, if u == owner then Owner else Ordinary, false)) else None
    ensures ActiveUids(NewRoster(owner, all)) == all
  {
    hide *;
    NobodyInRoster(owner, u);
    if all != [] {
      var k := |all| - 1;
      RosterOfPrefix(owner, all);
      MemberSnoc(NewRoster(owner, all[..k]), Member(all[k], if all[k] == owner then Owner else Ordinary, false), u);
      NewRosterFacts(owner, all[..k], u);
      NewRosterFacts(owner, all[..k], all[k]);
      assert all == all[..k] + [all[k]];
    }
  }

  lemma {:induction false} NobodyInRoster(owner: Uid, u: Uid)
    ensures Keyed(NewRoster(owner, [])) && FindMember(NewRoster(owner, []), u) == None
    ensures ActiveUids(NewRoster(owner, [])) == []
  {
  }

  // ---------------------------------------------------------------- the invariant of a group

  /** The owner is an active member and the only one with the owner's role, the conversation exists
      and is a group, and its members are the active members of the group. */
  ghost predicate GroupOk(db: Db, g: ConvId)
    requires g in db.groups
  {
    var ms, owner := Roster(db, g), db.groups[g].owner;
    && Keyed(ms)
    && FindMember(ms, owner) == Some(Member(owner, Owner, false))
    && (forall u :: u != owner && FindMember(ms, u).Some? ==> FindMember(ms, u).value.role == Ordinary)
    && g in db.convs && db.convs[g].isGroup
    && (forall u :: (g, u) in db.convMembers <==> IsActive(ms, u))
  }

  ghost predicate GroupInv(db: Db) {
    && (forall g :: g in db.groups ==> GroupOk(db, g))
    && (forall g :: g in db.roster ==> g in db.groups)
    && (forall c, u :: (c, u) in db.convMembers ==> c in db.convs)
  }

  /** member_count is exact. */
  predicate CountOk(db: Db, g: ConvId)
    requires g in db.groups
  {
    db.groups[g].memberCount == |ActiveUids(Roster(db, g))|
  }

  ghost predicate AllInv(db: Db) {
    Inv(db) && GroupInv(db)
  }

  // ---------------------------------------------------------------- changes

  /** Only group g is touched. */
  ghost predicate OnlyGroup(db: Db, d: Db, g: ConvId) {
    && d.users == db.users && d.messages == db.messages && d.counters == db.counters && d.online == db.online
    && d.singles == db.singles && d.convs == db.convs
    && d.groups.Keys == db.groups.Keys
    && (forall x :: x in db.groups && x != g ==> d.groups[x] == db.groups[x])
    && (forall x :: x != g ==> Roster(d, x) == Roster(db, x))
    && (forall x, u :: x != g ==> ((x, u) in d.convMembers <==> (x, u) in db.convMembers))
    && (forall x :: x in d.roster ==> x in db.groups)
  }

  lemma OnlyGroupKeepsSeqInv(db: Db, d: Db, g: ConvId)
    requires SeqInv(db) && OnlyGroup(db, d, g)
    ensures SeqInv(d)
  {
    SameNumbers(db, d);
  }

  lemma OnlyGroupKeepsSingleInv(db: Db, d: Db, g: ConvId)
    requires SingleInv(db) && OnlyGroup(db, d, g) && g in db.groups
    ensures SingleInv(d)
  {
  }

  lemma OnlyGroupKeepsOther(db: Db, d: Db, g: ConvId, x: ConvId)
    requires OnlyGroup(db, d, g) && x in db.groups && x != g && GroupOk(db, x)
    ensures GroupOk(d, x)
  {
    hide FindMember, Keyed;
  }

  lemma OnlyGroupKeepsConvs(db: Db, d: Db, g: ConvId, c: ConvId, u: Uid)
    requires GroupInv(db) && OnlyGroup(db, d, g) && g in db.groups && (c, u) in d.convMembers
    ensures c in d.convs
  {
    assert GroupOk(db, g);
    if c != g {
      assert (c, u) in db.convMembers;
    }
  }

  lemma OnlyGroupKeepsGroups(db: Db, d: Db, g: ConvId)
    requires GroupInv(db) && OnlyGroup(db, d, g) && g in db.groups && GroupOk(d, g)
    ensures GroupInv(d)
  {
    hide GroupOk;
    forall c, u | (c, u) in d.convMembers {
      OnlyGroupKeepsConvs(db, d, g, c, u);
    }
    forall x | x in d.groups && x != g {
      OnlyGroupKeepsOther(db, d, g, x);
    }
  }

  lemma OnlyGroupKeepsInv(db: Db, d: Db, g: ConvId)
    requires AllInv(db) && OnlyGroup(db, d, g) && g in db.groups && GroupOk(d, g)
    ensures AllInv(d)
  {
    hide SeqInv, SingleInv, GroupInv, GroupOk, OnlyGroup;
    OnlyGroupKeepsSeqInv(db, d, g);
    OnlyGroupKeepsSingleInv(db, d, g);
    OnlyGroupKeepsGroups(db, d, g);
  }

  lemma {:induction false} JoinAt(ms: seq<Member>, us: seq<Uid>, v: Uid)
    requires Keyed(ms)
    ensures var after := RejoinAll(ms, Newcomers(ms, us));
      && Keyed(after)
      && (v in Newcomers(ms, us) <==> v in us && !IsActive(ms, v))
      && (IsActive(after, v) <==> IsActive(ms, v) || v in us)
      && FindMember(after, v) ==
           (if v in Newcomers(ms, us) then Some(Member(v, RoleOf(ms, v), false)) else FindMember(ms, v))
      && (v in ActiveUids(ms) <==> IsActive(ms, v))
      && (v in ActiveUids(after) <==> IsActive(after, v))
  {
    RejoinAllFacts(ms, Newcomers(ms, us), v);
    NewcomersFacts(ms, us, v);
    ActiveMeans(ms, v);
    ActiveMeans(RejoinAll(ms, Newcomers(ms, us)), v);
    hide RejoinAll, Newcomers, Keyed, ActiveUids, FindMember;
  }

  function Joined(db: Db, g: ConvId, us: seq<Uid>): Db
    requires g in db.groups
  {
    var ms := Roster(db, g);
    Recount(
      db.(roster := db.roster[g := RejoinAll(ms, Newcomers(ms, us))],
          convMembers := db.convMembers + set u | u in Newcomers(ms, us) :: (g, u)), g)
  }

  lemma {:induction false} JoinTables(db: Db, g: ConvId, us: seq<Uid>)
    requires GroupInv(db) && g in db.groups
    ensures var d, ms := Joined(db, g, us), Roster(db, g);
      && OnlyGroup(db, d, g) && CountOk(d, g)
      && Roster(d, g) == RejoinAll(ms, Newcomers(ms, us))
      && d.groups[g].owner == db.groups[g].owner && d.convs == db.convs
      && forall u :: (g, u) in d.convMembers <==> (g, u) in db.convMembers || u in Newcomers(ms, us)
  {
    hide RejoinAll, Newcomers, ActiveUids, GroupOk;
  }

  lemma JoinGroupOk(db: Db, g: ConvId, us: seq<Uid>)
    requires GroupInv(db) && g in db.groups
    ensures var d := Joined(db, g, us);
      && GroupOk(d, g)
      && forall u :: u in ActiveUids(Roster(d, g)) <==> u in ActiveUids(Roster(db, g)) || u in us
  {
    hide RejoinAll, Newcomers, Keyed, ActiveUids, FindMember, IsActive, OnlyGroup, Joined;
    var ms := Roster(db, g);
    assert GroupOk(db, g);
    JoinTables(db, g, us);
    forall v {
      JoinAt(ms, us, v);
    }
    hide GroupInv;
  }

  lemma JoinKeeps(db: Db, g: ConvId, us: seq<Uid>)
    requires GroupInv(db) && g in db.groups && ApplyChange(db, g, AddMembers(us)).Done?
    ensures var d := ApplyChange(db, g, AddMembers(us)).db;
      && OnlyGroup(db, d, g) && GroupOk(d, g) && CountOk(d, g)
      && |ActiveUids(Roster(d, g))| <= GROUP_MAX_MEMBERS
      && forall u :: u in ActiveUids(Roster(d, g)) <==> u in ActiveUids(Roster(db, g)) || u in us
  {
    hide RejoinAll, Newcomers, Keyed, ActiveUids, FindMember, IsActive, OnlyGroup;
    var ms, d := Roster(db, g), Joined(db, g, us);
    assert d == ApplyChange(db, g, AddMembers(us)).db;
    JoinTables(db, g, us);
    JoinGroupOk(db, g, us);
    assert GroupOk(db, g);
    hide GroupInv, GroupOk;
    RejoinAllFacts(ms, Newcomers(ms, us), "");
  }

  lemma {:induction false} LeaveAt(ms: seq<Member>, u: Uid, v: Uid)
    requires Keyed(ms)
    ensures var after := MarkLeft(ms, u);
      && Keyed(after)
      && (IsActive(after, v) <==> IsActive(ms, v) && v != u)
      && (v != u ==> FindMember(after, v) == FindMember(ms, v))
      && (FindMember(after, v).Some? ==> FindMember(ms, v).Some?)
      && (FindMember(after, v).Some? ==> FindMember(after, v).value.role == FindMember(ms, v).value.role)
      && (v in ActiveUids(ms) <==> IsActive(ms, v))
      && (v in ActiveUids(after) <==> IsActive(after, v))
  {
    MarkLeftFacts(ms, u, v);
    ActiveMeans(ms, v);
    ActiveMeans(MarkLeft(ms, u), v);
    hide MarkLeft, Keyed, ActiveUids, FindMember;
  }

  function Left(db: Db, g: ConvId, u: Uid): Db
    requires g in db.groups
  {
    Recount(db.(roster := db.roster[g := MarkLeft(Roster(db, g), u)], convMembers := db.convMembers - {(g, u)}), g)
  }

  lemma {:induction false} LeaveTables(db: Db, g: ConvId, u: Uid)
    requires GroupInv(db) && g in db.groups
    ensures var d := Left(db, g, u);
      && OnlyGroup(db, d, g) && CountOk(d, g)
      && Roster(d, g) == MarkLeft(Roster(db, g), u)
      && d.groups[g].owner == db.groups[g].owner && d.convs == db.convs
      && forall v :: (g, v) in d.convMembers <==> (g, v) in db.convMembers && v != u
  {
    hide MarkLeft, ActiveUids, GroupOk;
  }

  lemma LeaveKeeps(db: Db, g: ConvId, u: Uid)
    requires GroupInv(db) && g in db.groups && u != db.groups[g].owner
    ensures var d := Left(db, g, u);
      && OnlyGroup(db, d, g) && GroupOk(d, g) && CountOk(d, g)
      && forall v :: v in ActiveUids(Roster(d, g)) <==> v in ActiveUids(Roster(db, g)) && v != u
  {
    hide MarkLeft, Keyed, ActiveUids, FindMember, IsActive, OnlyGroup, Left;
    assert GroupOk(db, g);
    LeaveTables(db, g, u);
    forall v {
      LeaveAt(Roster(db, g), u, v);
    }
  }

  // ---------------------------------------------------------------- the event

  lemma EventKeepsInv(db: Db, g: ConvId, actor: Uid, note: Content, draw: nat)
    requires AllInv(db) && Drawn(draw) !in db.messages
    ensures var r := InsertEvent(db, g, actor, note, draw);
      r.Ok? && AllInv(r.db) && r == Ok(Append(db, Drawn(draw), g, actor, SystemEvent, note), Drawn(draw))
  {
    NextNumberIsFree(db, g);
    AppendKeepsSeqInv(db, Drawn(draw), g, actor, SystemEvent, note);
    AppendKeepsGroups(db, Drawn(draw), g, actor, SystemEvent, note);
  }

  lemma AppendKeepsGroups(db: Db, id: Id, c: ConvId, from: Uid, kind: Kind, content: Content)
    requires SingleInv(db) && GroupInv(db)
    ensures SingleInv(Append(db, id, c, from, kind, content)) && GroupInv(Append(db, id, c, from, kind, content))
    ensures Append(db, id, c, from, kind, content).groups == db.groups
    ensures Append(db, id, c, from, kind, content).roster == db.roster
  {
    var d := Append(db, id, c, from, kind, content);
    forall x | x in d.groups
      ensures GroupOk(d, x)
    {
      assert GroupOk(db, x);
    }
  }

  // ---------------------------------------------------------------- the operations

  lemma ChangeKeepsInv(db: Db, g: ConvId, change: Change)
    requires AllInv(db) && g in db.groups && Precheck(db, g, change).None? && ApplyChange(db, g, change).Done?
    ensures var d := ApplyChange(db, g, change).db;
      AllInv(d) && OnlyGroup(db, d, g)
  {
    hide SeqInv, SingleInv;
    match change {
      case AddMembers(us) =>
        JoinKeeps(db, g, us);
      case RemoveMember(target) =>
        LeaveKeeps(db, g, target);
        assert ApplyChange(db, g, change).db == Left(db, g, target);
      case _ =>
        SettingsKeep(db, g, change);
    }
    hide GroupOk, OnlyGroup, ApplyChange, GroupInv;
    OnlyGroupKeepsInv(db, ApplyChange(db, g, change).db, g);
  }

  lemma SettingsKeep(db: Db, g: ConvId, change: Change)
    requires GroupInv(db) && g in db.groups && !change.AddMembers? && !change.RemoveMember?
    ensures var d := ApplyChange(db, g, change).db; OnlyGroup(db, d, g) && GroupOk(d, g)
  {
    var d := ApplyChange(db, g, change).db;
    assert d == db.(groups := db.groups[g := d.groups[g]]) && d.groups[g].owner == db.groups[g].owner;
    hide ApplyChange;
    RowKeeps(db, g, d.groups[g]);
  }

  lemma RowKeeps(db: Db, g: ConvId, row: GroupRow)
    requires GroupInv(db) && g in db.groups && row.owner == db.groups[g].owner
    ensures var d := db.(groups := db.groups[g := row]); OnlyGroup(db, d, g) && GroupOk(d, g)
  {
    hide FindMember, Keyed;
    assert GroupOk(db, g);
  }

  /** A successful transaction writes exactly one row, the event, under the next number. */
  ghost predicate OneEvent(db: Db, g: ConvId, actor: Uid, note: Content, draw: nat, d: Db) {
    && d.messages == db.messages[Drawn(draw) := Row(g, Counter(db, g) + 1, actor, SystemEvent, note)]
    && Counter(d, g) == Counter(db, g) + 1
    && (forall c :: c != g ==> Counter(d, c) == Counter(db, c))
  }

  /** Every owner-only operation keeps all invariants and, when it succeeds, adds exactly one event;
      when it is refused there is nothing to keep, as its result holds no tables. */
  lemma ManageKeepsInv(db: Db, g: ConvId, operator: Uid, change: Change, note: Content, draw: nat)
    requires AllInv(db) && Drawn(draw) !in db.messages
    ensures var r := Manage(db, g, operator, change, note, draw);
      r.Ok? ==> AllInv(r.db) && OneEvent(db, g, operator, note, draw, r.db) && r.db.groups.Keys == db.groups.Keys
  {
    hide SeqInv, SingleInv, GroupOk, ApplyChange, Precheck, GroupInv, InsertEvent;
    if Manage(db, g, operator, change, note, draw).Ok? {
      ChangeKeepsInv(db, g, change);
      EventKeepsInv(ApplyChange(db, g, change).db, g, operator, note, draw);
    }
  }

  lemma QuitKeepsInv(db: Db, g: ConvId, u: Uid, note: Content, draw: nat)
    requires AllInv(db) && Drawn(draw) !in db.messages
    ensures var r := Quit(db, g, u, note, draw);
      r.Ok? ==> AllInv(r.db) && OneEvent(db, g, u, note, draw, r.db) && r.db.groups.Keys == db.groups.Keys
  {
    hide SeqInv, SingleInv, InsertEvent, Left, Quit, ActiveUids, ActiveRole, GroupOk;
    if Quit(db, g, u, note, draw).Ok? {
      QuitIsLeft(db, g, u, note, draw);
      QuitterIsNotOwner(db, g, u);
      LeaveKeeps(db, g, u);
      hide GroupInv;
      OnlyGroupKeepsInv(db, Left(db, g, u), g);
      EventKeepsInv(Left(db, g, u), g, u, note, draw);
    }
  }

  lemma {:induction false} QuitterIsNotOwner(db: Db, g: ConvId, u: Uid)
    requires GroupInv(db) && g in db.groups && u in ActiveUids(Roster(db, g))
    requires ActiveRole(Roster(db, g), u) != Some(Owner)
    ensures u != db.groups[g].owner
  {
    assert GroupOk(db, g);
    ActiveMeans(Roster(db, g), u);
  }

  lemma {:induction false} QuitIsLeft(db: Db, g: ConvId, u: Uid, note: Content, draw: nat)
    requires Quit(db, g, u, note, draw).Ok?
    ensures g in db.groups && u in ActiveUids(Roster(db, g)) && ActiveRole(Roster(db, g), u) != Some(Owner)
    ensures db.groups[g].status == GroupStatus.Active
    ensures Quit(db, g, u, note, draw) == InsertEvent(Left(db, g, u), g, u, note, draw)
  {
    hide InsertEvent, MarkLeft, ActiveUids, ActiveRole;
  }

  // ---------------------------------------------------------------- creation

  function CreatedTables(db: Db, g: ConvId, owner: Uid, name: string, members: seq<Uid>): Db {
    var all := OwnerFirst(owner, members);
    db.(groups := db.groups[g := GroupRow(name, "", owner, None, GroupStatus.Active, |members| + 1)],
        roster := db.roster[g := NewRoster(owner, all)],
        convs := db.convs[g := Conversation(true, all, 0)],
        convMembers := db.convMembers + set u | u in all :: (g, u))
  }

  lemma {:induction false} CreatedRoster(owner: Uid, members: seq<Uid>, u: Uid)
    requires !HasDuplicates(OwnerFirst(owner, members))
    ensures var all := OwnerFirst(owner, members);
      var ms := NewRoster(owner, all);
      && Keyed(ms) && owner in all
      && FindMember(ms, u) == (if u in all then Some(Member(u, if u == owner then Owner else Ordinary, false)) else None)
      && (IsActive(ms, u) <==> u in all)
      && (|members| + 1 == |ActiveUids(ms)| <==> owner !in members)
  {
    OwnerFirstFacts(owner, members, owner);
    NewRosterFacts(owner, OwnerFirst(owner, members), u);
  }

  lemma {:induction false} CreatedGroupOk(db: Db, g: ConvId, owner: Uid, name: string, members: seq<Uid>)
    requires GroupInv(db) && g !in db.groups && g !in db.convs && !HasDuplicates(OwnerFirst(owner, members))
    ensures var d := CreatedTables(db, g, owner, name, members);
      GroupOk(d, g) && (CountOk(d, g) <==> owner !in members)
  {
    hide OwnerFirst, NewRoster, FindMember, Keyed, ActiveUids, HasDuplicates, IsActive;
    var all := OwnerFirst(owner, members);
    var d := CreatedTables(db, g, owner, name, members);
    CreatedRoster(owner, members, owner);
    assert Roster(d, g) == NewRoster(owner, all);
    forall u
      ensures u != owner && FindMember(Roster(d, g), u).Some? ==> FindMember(Roster(d, g), u).value.role == Ordinary
      ensures (g, u) in d.convMembers <==> IsActive(Roster(d, g), u)
    {
      CreatedRoster(owner, members, u);
    }
  }

  lemma CreatedKeepsOther(db: Db, g: ConvId, owner: Uid, name: string, members: seq<Uid>, x: ConvId)
    requires x in db.groups && x != g && GroupOk(db, x)
    ensures GroupOk(CreatedTables(db, g, owner, name, members), x)
  {
    hide OwnerFirst, NewRoster, FindMember, Keyed, IsActive;
  }

  lemma CreatedKeepsConvs(db: Db, g: ConvId, owner: Uid, name: string, members: seq<Uid>, c: ConvId, u: Uid)
    requires GroupInv(db) && (c, u) in CreatedTables(db, g, owner, name, members).convMembers
    ensures c in CreatedTables(db, g, owner, name, members).convs
  {
    hide OwnerFirst, NewRoster, GroupOk;
  }

  lemma {:induction false} CreatedKeepsGroups(db: Db, g: ConvId, owner: Uid, name: string, members: seq<Uid>)
    requires GroupInv(db) && g !in db.groups && g !in db.convs && !HasDuplicates(OwnerFirst(owner, members))
    ensures GroupInv(CreatedTables(db, g, owner, name, members))
  {
    hide OwnerFirst, NewRoster, GroupOk, HasDuplicates;
    var d := CreatedTables(db, g, owner, name, members);
    assert d.groups.Keys == db.groups.Keys + {g} && d.roster.Keys == db.roster.Keys + {g};
    CreatedGroupOk(db, g, owner, name, members);
    forall c, u | (c, u) in d.convMembers {
      CreatedKeepsConvs(db, g, owner, name, members, c, u);
    }
    forall x | x in db.groups && x != g {
      CreatedKeepsOther(db, g, owner, name, members, x);
    }
    hide CreatedTables;
  }

  /** The numbers of a group whose conversation row is new: a row at 0 is raised by the event all the
      same, even when messages were numbered before the row existed. */
  lemma CreatedKeepsNumbers(db: Db, g: ConvId, owner: Uid, name: string, members: seq<Uid>, note: Content, draw: nat)
    requires SeqInv(db) && g !in db.convs && Drawn(draw) !in db.messages
    ensures SeqInv(Append(CreatedTables(db, g, owner, name, members), Drawn(draw), g, owner, SystemEvent, note))
    ensures !Numbered(CreatedTables(db, g, owner, name, members), g, Counter(db, g) + 1)
  {
    hide OwnerFirst, NewRoster;
    NextNumberIsFree(db, g);
    AppendKeepsSeqInv(db, Drawn(draw), g, owner, SystemEvent, note);
    CounterIsPositive(db, g);
    hide Numbered;
    CreatedLastSeqs(db, CreatedTables(db, g, owner, name, members), g, owner, note, draw);
  }

  lemma CreatedLastSeqs(db: Db, d: Db, g: ConvId, owner: Uid, note: Content, draw: nat)
    requires g !in db.convs && Counter(db, g) >= 0
    requires SeqInv(Append(db, Drawn(draw), g, owner, SystemEvent, note))
    requires d.messages == db.messages && d.counters == db.counters
    requires exists row: Conversation :: row.lastSeq == 0 && d.convs == db.convs[g := row]
    ensures SeqInv(Append(d, Drawn(draw), g, owner, SystemEvent, note))
  {
    var plain := Append(db, Drawn(draw), g, owner, SystemEvent, note);
    var e := Append(d, Drawn(draw), g, owner, SystemEvent, note);
    forall c | c in e.convs
      ensures e.convs[c].lastSeq == Counter(plain, c)
    {
      assert c != g ==> c in plain.convs;
    }
    hide SeqInv;
    SameNumbers(plain, e);
  }

  lemma CounterIsPositive(db: Db, c: ConvId)
    requires SeqInv(db)
    ensures Counter(db, c) >= 0
  {
  }

  /** Creation keeps all invariants, and member_count is exact exactly when the owner is not listed
      among the members: a listed owner is counted twice. */
  lemma CreateKeepsInv(db: Db, g: ConvId, owner: Uid, name: string, members: seq<Uid>, note: Content, draw: nat)
    requires AllInv(db) && Drawn(draw) !in db.messages && CreateGroup(db, g, owner, name, members, note, draw).Ok?
    ensures var d := CreateGroup(db, g, owner, name, members, note, draw).db;
      && AllInv(d) && OneEvent(db, g, owner, note, draw, d)
      && g in d.groups && (CountOk(d, g) <==> owner !in members)
  {
    hide SeqInv, SingleInv, GroupOk, OwnerFirst, NewRoster, HasDuplicates;
    var d := CreatedTables(db, g, owner, name, members);
    CreatedGroupOk(db, g, owner, name, members);
    CreatedKeepsGroups(db, g, owner, name, members);
    CreatedKeepsNumbers(db, g, owner, name, members, note, draw);
    assert SingleInv(d) by { CreatedKeepsSingles(db, g, owner, name, members); }
    AppendKeepsGroups(d, Drawn(draw), g, owner, SystemEvent, note);
    hide GroupInv;
  }

  lemma CreatedKeepsSingles(db: Db, g: ConvId, owner: Uid, name: string, members: seq<Uid>)
    requires SingleInv(db) && g !in db.convs
    ensures SingleInv(CreatedTables(db, g, owner, name, members))
  {
  }

  // ---------------------------------------------------------------- message handling

  /** Handling a frame leaves groups as they are. */
  lemma HandleKeepsGroups(db: Db, m: Msg)
    requires AllInv(db) && DrawsUnused(db, m)
    ensures AllInv(Handle(db, m).db)
  {
    hide SeqInv, SingleInv;
    HandleKeepsInv(db, m);
    var m0 := Normalise(m);
    match m0.kind
    case SystemEvent => StoreKeepsGroups(db, m0, ActiveUids(Roster(db, m0.convId)));
    case Group => StoreKeepsGroups(db, m0, ActiveUids(Roster(db, m0.convId)));
    case Single =>
      match ValidateSingle(db, m0) {
        case Pass(d, m1) =>
          ValidateKeepsGroups(db, m0);
          StoreKeepsGroups(d, m1, []);
        case _ =>
      }
    case _ =>
  }

  lemma StoreKeepsGroups(db: Db, m: Msg, targets: seq<Uid>)
    requires GroupInv(db)
    ensures GroupInv(StoreAndPush(db, m, targets).db)
  {
    hide Pushes;
    var m1 := AssignId(m);
    var d := Append(db, m1.id, m1.convId, m1.fromUid, m1.kind, m1.content);
    assert GroupInv(d) by {
      forall x | x in d.groups
        ensures GroupOk(d, x)
      {
        assert GroupOk(db, x);
      }
    }
  }

  lemma OpenKeepsGroups(db: Db, a: Uid, b: Uid, c: ConvId)
    requires GroupInv(db) && Unused(db, c)
    ensures GroupInv(WithNew(db, a, b, c))
  {
    hide Keyed, FindMember, SingleKey;
    var d := WithNew(db, a, b, c);
    forall x | x in d.groups
      ensures GroupOk(d, x)
    {
      assert GroupOk(db, x);
    }
  }

  lemma ValidateKeepsGroups(db: Db, m: Msg)
    requires GroupInv(db) && DrawsUnused(db, m) && ValidateSingle(db, m).Pass?
    ensures GroupInv(ValidateSingle(db, m).db)
  {
    hide GroupInv, SingleKey, Unused;
    if m.convId == "" {
      OpenKeepsGroups(db, m.fromUid, m.toUid, m.newConv);
    }
  }
}
