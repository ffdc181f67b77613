// The members column of conversations: written with the row and never again, so that for a group it
// stays the list of its first members.
module ConvMembers {
  import opened Chat
  import opened Tables
  import opened PersistSpec
  import opened BatchSpec
  import opened BatchBulk
  import opened GroupSpec
  import opened GroupInvariants
  import opened ChatRuns
  import GroupRuns

  predicate SameColumn(db: Db, d: Db, c: ConvId) {
    c in db.convs ==> c in d.convs && d.convs[c].members == db.convs[c].members
  }

  lemma AppendSame(db: Db, id: Id, g: ConvId, from: Uid, kind: Kind, content: Content, c: ConvId)
    ensures SameColumn(db, Append(db, id, g, from, kind, content), c)
  {
  }

  lemma StoreSame(db: Db, m: Msg, targets: seq<Uid>, c: ConvId)
    ensures SameColumn(db, StoreAndPush(db, m, targets).db, c)
  {
    hide Numbered, Pushes, Append, SameColumn;
    var m1 := AssignId(m);
    AppendSame(db, m1.id, m1.convId, m1.fromUid, m1.kind, m1.content, c);
    assert SameColumn(db, db, c) by { Unchanged(db, c); }
  }

  lemma Unchanged(db: Db, c: ConvId)
    ensures SameColumn(db, db, c)
  {
  }

  lemma ValidatedSame(db: Db, m: Msg, c: ConvId)
    ensures ValidateSingle(db, m).Pass? ==> SameColumn(db, ValidateSingle(db, m).db, c)
  {
    hide SingleKey;
  }

  lemma HandleSame(db: Db, m: Msg, c: ConvId)
    ensures SameColumn(db, Handle(db, m).db, c)
  {
    hide StoreAndPush, ValidateSingle, GroupAccepts, ActiveUids;
    var m0 := Normalise(m);
    ValidatedSame(db, m0, c);
    StoreSame(db, m0, ActiveUids(Roster(db, m0.convId)), c);
    match ValidateSingle(db, m0)
    case Pass(d, m1) => StoreSame(d, m1, [], c);
    case _ =>
  }

  lemma {:induction false} RunEarlySame(db: Db, ms: seq<Msg>, c: ConvId)
    ensures SameColumn(db, RunEarly(db, ms).db, c)
  {
    hide Handle;
    if ms != [] {
      var k := |ms| - 1;
      RunEarlySame(db, ms[..k], c);
      HandleSame(RunEarly(db, ms[..k]).db, ms[k], c);
    }
  }

  lemma BatchSame(db: Db, ms: seq<Msg>, c: ConvId)
    ensures SameColumn(db, HandleBatch(db, ms).db, c)
  {
    hide RunEarly, Rest, Firsts, Unknown, AppendEach;
    RunEarlySame(db, ms, c);
    var d := RunEarly(db, ms).db;
    AppendEachIsBulk(d, Unknown(d, Firsts(Rest(db, ms))));
  }

  lemma EventSame(db: Db, g: ConvId, u: Uid, note: Content, draw: nat, c: ConvId)
    ensures InsertEvent(db, g, u, note, draw).Ok? ==> SameColumn(db, InsertEvent(db, g, u, note, draw).db, c)
  {
    hide Numbered;
  }

  lemma ChangeSame(db: Db, g: ConvId, change: Change, c: ConvId)
    requires g in db.groups
    ensures ApplyChange(db, g, change).Done? ==> SameColumn(db, ApplyChange(db, g, change).db, c)
  {
    hide RejoinAll, Newcomers, MarkLeft, ActiveUids;
  }

  /** No operation changes the column of a conversation that exists. */
  lemma StepSame(db: Db, s: Step, c: ConvId)
    ensures SameColumn(db, Perform(db, s), c)
  {
    hide Handle, HandleBatch, InsertEvent, ApplyChange, Precheck, OwnerFirst, NewRoster, ActiveUids, ActiveRole,
         MarkLeft;
    match s
    case Frame(m) => HandleSame(db, m, c);
    case Batch(ms) => BatchSame(db, ms, c);
    case Create(g, owner, name, members, note, draw) =>
      EventSame(CreatedTables(db, g, owner, name, members), g, owner, note, draw, c);
    case Govern(g, operator, change, note, draw) =>
      if Manage(db, g, operator, change, note, draw).Ok? {
        ChangeSame(db, g, change, c);
        EventSame(ApplyChange(db, g, change).db, g, operator, note, draw, c);
      }
    case Leave(g, u, note, draw) =>
      if Quit(db, g, u, note, draw).Ok? {
        QuitIsLeft(db, g, u, note, draw);
        EventSame(Left(db, g, u), g, u, note, draw, c);
      }
    case _ =>
  }

  lemma {:induction false} RunSame(db: Db, steps: seq<Step>, c: ConvId)
    ensures SameColumn(db, Run(db, steps), c)
  {
    hide Perform;
    if steps != [] {
      var k := |steps| - 1;
      RunSame(db, steps[..k], c);
      StepSame(Run(db, steps[..k]), steps[k], c);
    }
  }

  // ---------------------------------------------------------------- the column and the members

  function Active(db: Db, g: ConvId): set<Uid> {
    set u | u in ActiveUids(Roster(db, g))
  }

  /** The column lists the active members. */
  predicate ColumnFits(db: Db, g: ConvId) {
    g in db.convs && (set u | u in db.convs[g].members) == Active(db, g)
  }

  /** From its creation on, over every run, the column of a group is the owner followed by the members
      it was created with; so it lists the active members exactly when they are the first ones again,
      although conv_members follows every join and departure. */
  lemma {:induction false} ColumnStaysFirst(db: Db, g: ConvId, owner: Uid, name: string, members: seq<Uid>,
                                            note: Content, draw: nat,
                         steps: seq<Step>)
    requires CreateGroup(db, g, owner, name, members, note, draw).Ok?
    ensures var d0 := CreateGroup(db, g, owner, name, members, note, draw).db;
      var d := Run(d0, steps);
      && g in d.convs && d.convs[g].members == OwnerFirst(owner, members) && ColumnFits(d0, g)
      && (ColumnFits(d, g) <==> Active(d, g) == Active(d0, g))
  {
    var d0 := CreateGroup(db, g, owner, name, members, note, draw).db;
    CreatedColumn(db, g, owner, name, members, note, draw);
    hide CreateGroup, OwnerFirst, ActiveUids;
    RunSame(d0, steps, g);
  }

  lemma {:induction false} CreatedColumn(db: Db, g: ConvId, owner: Uid, name: string, members: seq<Uid>,
                                         note: Content, draw: nat)
    requires CreateGroup(db, g, owner, name, members, note, draw).Ok?
    ensures var d0 := CreateGroup(db, g, owner, name, members, note, draw).db;
      g in d0.convs && d0.convs[g].members == OwnerFirst(owner, members) && ColumnFits(d0, g)
  {
    hide OwnerFirst, NewRoster, ActiveUids, HasDuplicates, InsertEvent;
    var all := OwnerFirst(owner, members);
    var d := CreatedTables(db, g, owner, name, members);
    EventSame(d, g, owner, note, draw, g);
    GroupRuns.EventLeavesGroups(d, g, owner, note, draw);
    NewRosterFacts(owner, all, owner);
  }

  /** Does the change leave the members what they were? */
  predicate KeepsMembers(db: Db, g: ConvId, change: Change) {
    match change
    case AddMembers(us) => forall u :: u in us ==> u in ActiveUids(Roster(db, g))
    case RemoveMember(_) => false
    case _ => true
  }

  lemma ActiveAfterChange(db: Db, g: ConvId, change: Change)
    requires GroupInv(db) && g in db.groups && Precheck(db, g, change).None? && ApplyChange(db, g, change).Done?
    ensures Active(ApplyChange(db, g, change).db, g) == Active(db, g) <==> KeepsMembers(db, g, change)
  {
    hide ActiveUids, RejoinAll, Newcomers, MarkLeft, GroupInv, GroupOk, OnlyGroup;
    var d := ApplyChange(db, g, change).db;
    match change
    case AddMembers(us) =>
      JoinKeeps(db, g, us);
      if Active(d, g) == Active(db, g) {
        forall u | u in us
          ensures u in ActiveUids(Roster(db, g))
        {
          assert u in Active(d, g);
        }
      }
    case RemoveMember(target) =>
      LeaveKeeps(db, g, target);
      assert d == Left(db, g, target);
      assert target in Active(db, g) && target !in Active(d, g);
    case _ =>
      assert Roster(d, g) == Roster(db, g);
  }

  /** An owner's operation on a group whose column fits leaves one that fits exactly when it neither
      brings somebody in nor removes anybody. */
  lemma ColumnGoesStale(db: Db, g: ConvId, operator: Uid, change: Change, note: Content, draw: nat)
    requires GroupInv(db) && ColumnFits(db, g) && Manage(db, g, operator, change, note, draw).Ok?
    ensures ColumnFits(Manage(db, g, operator, change, note, draw).db, g) <==> KeepsMembers(db, g, change)
  {
    hide GroupInv, InsertEvent, ApplyChange, Precheck, ActiveUids, KeepsMembers;
    var d := ApplyChange(db, g, change).db;
    ActiveAfterChange(db, g, change);
    ChangeSame(db, g, change, g);
    EventSame(d, g, operator, note, draw, g);
    GroupRuns.EventLeavesGroups(d, g, operator, note, draw);
  }

  /** And anybody's leaving always leaves one that does not. */
  lemma QuitMakesColumnStale(db: Db, g: ConvId, u: Uid, note: Content, draw: nat)
    requires GroupInv(db) && ColumnFits(db, g) && Quit(db, g, u, note, draw).Ok?
    ensures !ColumnFits(Quit(db, g, u, note, draw).db, g)
  {
    hide GroupInv, InsertEvent, ActiveUids, ActiveRole, Quit, Left, OnlyGroup, GroupOk;
    QuitIsLeft(db, g, u, note, draw);
    QuitterIsNotOwner(db, g, u);
    LeaveKeeps(db, g, u);
    LeaveTables(db, g, u);
    EventSame(Left(db, g, u), g, u, note, draw, g);
    GroupRuns.EventLeavesGroups(Left(db, g, u), g, u, note, draw);
    assert u in Active(db, g) && u !in Active(Left(db, g, u), g);
  }
}
