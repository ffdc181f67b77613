// A group over its whole life: its owner stays its owner, and its member count stays right.
module GroupRuns {
  import opened Wrappers
  import opened Chat
  import opened Tables
  import opened PersistSpec
  import opened PersistInvariants
  import opened BatchSpec
  import opened BatchBulk
  import opened GroupSpec
  import opened GroupInvariants
  import opened ChatRuns

  /** The group's row and its members are what they were. */
  predicate SameGroup(db: Db, d: Db, g: ConvId) {
    g in db.groups && g in d.groups && d.groups[g] == db.groups[g] && Roster(d, g) == Roster(db, g)
  }

  /** The member count is exact and the owner is the given one. */
  predicate InOrder(db: Db, g: ConvId, owner: Uid) {
    g in db.groups && CountOk(db, g) && db.groups[g].owner == owner
  }

  lemma SameStaysInOrder(db: Db, d: Db, g: ConvId, owner: Uid)
    requires InOrder(db, g, owner) && SameGroup(db, d, g)
    ensures InOrder(d, g, owner)
  {
  }

  lemma EventLeavesGroups(db: Db, x: ConvId, u: Uid, note: Content, draw: nat)
    requires InsertEvent(db, x, u, note, draw).Ok?
    ensures InsertEvent(db, x, u, note, draw).db.groups == db.groups
    ensures InsertEvent(db, x, u, note, draw).db.roster == db.roster
  {
    hide Numbered;
  }

  lemma {:induction false} RunEarlyGrows(db: Db, ms: seq<Msg>)
    ensures Grows(db, RunEarly(db, ms).db)
  {
    hide Handle, Grows;
    if ms == [] {
      GrowsReflexive(db);
    } else {
      var k := |ms| - 1;
      RunEarlyGrows(db, ms[..k]);
      var d := RunEarly(db, ms[..k]).db;
      HandleGrows(d, ms[k]);
      GrowsTransitive(db, d, Handle(d, ms[k]).db);
    }
  }

  lemma BatchLeavesGroups(db: Db, ms: seq<Msg>)
    ensures HandleBatch(db, ms).db.groups == db.groups && HandleBatch(db, ms).db.roster == db.roster
  {
    hide RunEarly, Rest, Firsts, Unknown, AppendEach;
    RunEarlyGrows(db, ms);
    var d := RunEarly(db, ms).db;
    AppendEachIsBulk(d, Unknown(d, Firsts(Rest(db, ms))));
  }

  lemma ManageKeepsOrder(db: Db, x: ConvId, u: Uid, change: Change, note: Content, draw: nat, g: ConvId, owner: Uid)
    requires AllInv(db) && InOrder(db, g, owner) && Manage(db, x, u, change, note, draw).Ok?
    ensures InOrder(Manage(db, x, u, change, note, draw).db, g, owner)
  {
    hide SeqInv, SingleInv, GroupOk, InsertEvent, ActiveUids;
    var d := ApplyChange(db, x, change).db;
    EventLeavesGroups(d, x, u, note, draw);
    assert InOrder(d, g, owner) by {
      ChangeKeepsInv(db, x, change);
      if x == g {
        ChangeKeepsOrder(db, g, change, owner);
      } else {
        SameStaysInOrder(db, d, g, owner);
      }
    }
    hide ApplyChange, GroupInv;
    SameStaysInOrder(d, Manage(db, x, u, change, note, draw).db, g, owner);
  }

  lemma ChangeKeepsOrder(db: Db, g: ConvId, change: Change, owner: Uid)
    requires GroupInv(db) && InOrder(db, g, owner) && ApplyChange(db, g, change).Done?
    ensures InOrder(ApplyChange(db, g, change).db, g, owner)
  {
    hide GroupInv, ActiveUids, RejoinAll, Newcomers, MarkLeft;
  }

  lemma QuitKeepsOrder(db: Db, x: ConvId, u: Uid, note: Content, draw: nat, g: ConvId, owner: Uid)
    requires GroupInv(db) && InOrder(db, g, owner) && Quit(db, x, u, note, draw).Ok?
    ensures InOrder(Quit(db, x, u, note, draw).db, g, owner)
  {
    hide InsertEvent, ActiveUids, ActiveRole, MarkLeft, GroupInv;
    QuitIsLeft(db, x, u, note, draw);
    EventLeavesGroups(Left(db, x, u), x, u, note, draw);
  }

  lemma CreateKeepsOrder(db: Db, x: ConvId, u: Uid, name: string, members: seq<Uid>, note: Content, draw: nat,
                         g: ConvId, owner: Uid)
    requires InOrder(db, g, owner) && CreateGroup(db, x, u, name, members, note, draw).Ok?
    ensures InOrder(CreateGroup(db, x, u, name, members, note, draw).db, g, owner)
  {
    hide InsertEvent, ActiveUids, NewRoster, OwnerFirst;
    EventLeavesGroups(CreatedTables(db, x, u, name, members), x, u, note, draw);
  }

  lemma StepKeepsOrder(db: Db, s: Step, g: ConvId, owner: Uid)
    requires AllInv(db) && Lawful(db, s) && InOrder(db, g, owner)
    ensures InOrder(Perform(db, s), g, owner)
  {
    hide SeqInv, SingleInv, GroupInv, Handle, HandleBatch, CreateGroup, Manage, Quit, InOrder;
    match s
    case Frame(m) =>
      HandleGrows(db, m);
      InOrderHasGroup(db, g, owner);
      SameStaysInOrder(db, Handle(db, m).db, g, owner);
    case Batch(ms) =>
      BatchLeavesGroups(db, ms);
      InOrderHasGroup(db, g, owner);
      SameStaysInOrder(db, HandleBatch(db, ms).db, g, owner);
    case Create(x, u, name, members, note, draw) =>
      if CreateGroup(db, x, u, name, members, note, draw).Ok? {
        CreateKeepsOrder(db, x, u, name, members, note, draw, g, owner);
      }
    case Govern(x, u, change, note, draw) =>
      if Manage(db, x, u, change, note, draw).Ok? {
        ManageKeepsOrder(db, x, u, change, note, draw, g, owner);
      }
    case Leave(x, u, note, draw) =>
      if Quit(db, x, u, note, draw).Ok? {
        QuitKeepsOrder(db, x, u, note, draw, g, owner);
      }
    case _ =>
      InOrderHasGroup(db, g, owner);
      SameStaysInOrder(db, Perform(db, s), g, owner);
  }

  lemma InOrderHasGroup(db: Db, g: ConvId, owner: Uid)
    requires InOrder(db, g, owner)
    ensures g in db.groups
  {
  }

  lemma {:induction false} RunKeepsOrder(db: Db, steps: seq<Step>, g: ConvId, owner: Uid)
    requires AllInv(db) && LawfulRun(db, steps) && InOrder(db, g, owner)
    ensures InOrder(Run(db, steps), g, owner) && AllInv(Run(db, steps))
  {
    hide AllInv, InOrder, Perform, Lawful;
    if steps != [] {
      var k := |steps| - 1;
      RunKeepsOrder(db, steps[..k], g, owner);
      StepKeepsOrder(Run(db, steps[..k]), steps[k], g, owner);
      StepKeepsInv(Run(db, steps[..k]), steps[k]);
    }
  }

  lemma {:induction false} OwnerRules(db: Db, g: ConvId, u: Uid)
    requires GroupInv(db) && g in db.groups
    ensures IsActive(Roster(db, g), db.groups[g].owner)
    ensures ActiveRole(Roster(db, g), u) == Some(Owner) <==> u == db.groups[g].owner
    ensures (g, u) in db.convMembers <==> u in ActiveUids(Roster(db, g))
  {
    hide Keyed, FindMember, ActiveUids, ActiveRole;
    assert GroupOk(db, g);
    ActiveMeans(Roster(db, g), u);
  }

  /** From its creation on, through every run of frames, batches and group operations: the creator is
      an active member and the only one in the owner's role, the conversation's members are the active
      ones, and, if the creator was not listed among the first members, member_count is their
      number. */
  lemma {:induction false} GroupStaysInOrder(db: Db, g: ConvId, owner: Uid, name: string, members: seq<Uid>,
                                             note: Content, draw: nat,
                          steps: seq<Step>, u: Uid)
    requires AllInv(db) && Drawn(draw) !in db.messages && CreateGroup(db, g, owner, name, members, note, draw).Ok?
    requires owner !in members && LawfulRun(CreateGroup(db, g, owner, name, members, note, draw).db, steps)
    ensures var d := Run(CreateGroup(db, g, owner, name, members, note, draw).db, steps);
      && g in d.groups && d.groups[g].owner == owner && IsActive(Roster(d, g), owner)
      && (ActiveRole(Roster(d, g), u) == Some(Owner) <==> u == owner)
      && ((g, u) in d.convMembers <==> u in ActiveUids(Roster(d, g)))
      && d.groups[g].memberCount == |ActiveUids(Roster(d, g))|
  {
    CreateKeepsInv(db, g, owner, name, members, note, draw);
    var d0 := CreateGroup(db, g, owner, name, members, note, draw).db;
    assert InOrder(d0, g, owner) by {
      hide InsertEvent, ActiveUids, NewRoster, OwnerFirst, AllInv, Roster;
      EventLeavesGroups(CreatedTables(db, g, owner, name, members), g, owner, note, draw);
    }
    hide AllInv, Run, LawfulRun, CreateGroup, ActiveUids, ActiveRole, IsActive, OneEvent;
    RunKeepsOrder(d0, steps, g, owner);
    AllHasGroups(Run(d0, steps));
    hide GroupInv;
    OwnerRules(Run(d0, steps), g, u);
  }

  lemma AllHasGroups(db: Db)
    requires AllInv(db)
    ensures GroupInv(db)
  {
  }
}
