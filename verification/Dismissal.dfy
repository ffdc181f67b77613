// What a dismissed group can still see happen: nothing but single-chat rows, whatever runs.
module Dismissal {
  import opened Chat
  import opened Tables
  import opened PersistSpec
  import opened PersistInvariants
  import opened BatchSpec
  import opened BatchBulk
  import opened BatchRefinement
  import opened GroupSpec
  import opened GroupInvariants
  import opened ChatRuns

  // ---------------------------------------------------------------- rows that are not single-chat

  /** A group message or an event of the conversation. */
  predicate IsNotice(db: Db, g: ConvId, id: Id) {
    id in db.messages && db.messages[id].convId == g && db.messages[id].kind != Single
  }

  /** Stored rows stay as they are, and the conversation gets no further notice. */
  ghost predicate Quiet(db: Db, d: Db, g: ConvId) {
    && (forall id :: id in db.messages ==> id in d.messages && d.messages[id] == db.messages[id])
    && (forall id :: IsNotice(d, g, id) ==> IsNotice(db, g, id))
  }

  lemma QuietTransitive(a: Db, b: Db, c: Db, g: ConvId)
    requires Quiet(a, b, g) && Quiet(b, c, g)
    ensures Quiet(a, c, g)
  {
  }

  lemma AppendIsQuiet(db: Db, id: Id, c: ConvId, from: Uid, kind: Kind, content: Content, g: ConvId)
    requires id !in db.messages && (kind == Single || c != g)
    ensures Quiet(db, Append(db, id, c, from, kind, content), g)
  {
  }

  predicate IsDismissed(db: Db, g: ConvId) {
    g in db.groups && db.groups[g].status == Dismissed
  }

  // ---------------------------------------------------------------- frames

  lemma StoreIsQuiet(db: Db, m: Msg, targets: seq<Uid>, g: ConvId)
    requires m.kind == Single || m.convId != g || (m.id != NoId && m.id in db.messages)
    ensures Quiet(db, StoreAndPush(db, m, targets).db, g)
  {
    hide Append;
    var m1 := AssignId(m);
    if m1.id !in db.messages {
      AppendIsQuiet(db, m1.id, m1.convId, m1.fromUid, m1.kind, m1.content, g);
    }
  }

  /** An event frame is an envelope for a row that the group transaction has already written. */
  predicate IsEnvelope(db: Db, m: Msg) {
    m.kind == SystemEvent ==> m.id != NoId && m.id in db.messages
  }

  /** Group frames are rejected, event frames find their rows, single frames store single rows. */
  lemma FrameIsQuiet(db: Db, m: Msg, g: ConvId)
    requires IsDismissed(db, g) && IsEnvelope(db, m)
    ensures Quiet(db, Handle(db, m).db, g)
    ensures Normalise(m).kind == Group && m.convId == g ==>
      Handle(db, m).status == Poison && Handle(db, m).db == db && Handle(db, m).pushes == []
  {
    hide StoreAndPush;
    var m0 := Normalise(m);
    match m0.kind
    case SystemEvent => StoreIsQuiet(db, m0, ActiveUids(Roster(db, m0.convId)), g);
    case Group => StoreIsQuietUnless(db, m0, g);
    case Single =>
      match ValidateSingle(db, m0) {
        case Pass(d, m1) => StoreIsQuiet(d, m1, [], g);
        case _ =>
      }
    case _ =>
  }

  lemma StoreIsQuietUnless(db: Db, m: Msg, g: ConvId)
    requires IsDismissed(db, g)
    ensures GroupAccepts(db, m) ==> Quiet(db, StoreAndPush(db, m, ActiveUids(Roster(db, m.convId))).db, g)
  {
    hide StoreAndPush;
    if GroupAccepts(db, m) {
      StoreIsQuiet(db, m, ActiveUids(Roster(db, m.convId)), g);
    }
  }

  // ---------------------------------------------------------------- batches

  lemma SingleFrameIsQuiet(db: Db, m: Msg, g: ConvId)
    requires Normalise(m).kind == Single
    ensures Quiet(db, Handle(db, m).db, g)
  {
    hide StoreAndPush;
    match ValidateSingle(db, Normalise(m)) {
      case Pass(d, m1) => StoreIsQuiet(d, m1, [], g);
      case _ =>
    }
  }

  lemma {:induction false} RunEarlyIsQuiet(db: Db, ms: seq<Msg>, g: ConvId)
    requires forall m :: m in ms ==> m.kind == Single
    ensures Quiet(db, RunEarly(db, ms).db, g) && Grows(db, RunEarly(db, ms).db)
  {
    hide Handle, Quiet, Grows;
    if ms == [] {
      assert Quiet(db, db, g) by { QuietReflexive(db, g); }
      GrowsReflexive(db);
    } else {
      var k := |ms| - 1;
      RunEarlyIsQuiet(db, ms[..k], g);
      var d := RunEarly(db, ms[..k]).db;
      SingleFrameIsQuiet(d, ms[k], g);
      QuietTransitive(db, d, Handle(d, ms[k]).db, g);
      HandleGrows(d, ms[k]);
      GrowsTransitive(db, d, Handle(d, ms[k]).db);
    }
  }

  lemma QuietReflexive(db: Db, g: ConvId)
    ensures Quiet(db, db, g)
  {
  }

  lemma {:induction false} AppendEachIsQuiet(db: Db, ms: seq<Msg>, g: ConvId)
    requires DistinctIds(ms) && forall m :: m in ms ==> m.kind == Single && m.id !in db.messages
    ensures Quiet(db, AppendEach(db, ms), g) && AppendEach(db, ms).groups == db.groups
  {
    hide Quiet;
    if ms == [] {
      QuietReflexive(db, g);
    } else {
      var k := |ms| - 1;
      AppendEachIsQuiet(db, ms[..k], g);
      var d, p := AppendEach(db, ms[..k]), ms[k];
      NotAppended(db, ms[..k], p);
      AppendIsQuiet(d, p.id, p.convId, p.fromUid, p.kind, p.content, g);
      QuietTransitive(db, d, AppendMsg(d, p), g);
    }
  }

  lemma {:induction false} RestIsSingle(db: Db, ms: seq<Msg>)
    requires forall m :: m in ms ==> m.kind == Single
    ensures forall p :: p in Rest(db, ms) ==> p.kind == Single
  {
    if ms != [] {
      RestIsSingle(db, ms[..|ms| - 1]);
    }
  }

  lemma BatchIsQuiet(db: Db, ms: seq<Msg>, g: ConvId)
    requires forall m :: m in ms ==> m.kind == Single
    ensures Quiet(db, HandleBatch(db, ms).db, g) && HandleBatch(db, ms).db.groups == db.groups
  {
    hide RunEarly, Rest, Firsts, Unknown, AppendEach, DistinctIds, Quiet;
    RunEarlyIsQuiet(db, ms, g);
    var d, rest := RunEarly(db, ms).db, Rest(db, ms);
    RestIsSingle(db, ms);
    FirstsCover(rest);
    FirstsDistinct(rest);
    UnknownDistinct(d, Firsts(rest));
    AppendEachIsQuiet(d, Unknown(d, Firsts(rest)), g);
    QuietTransitive(db, d, AppendEach(d, Unknown(d, Firsts(rest))), g);
  }

  // ---------------------------------------------------------------- group operations

  /** No operation on a dismissed group succeeds. */
  lemma DismissedRefuses(db: Db, g: ConvId, u: Uid, change: Change, name: string, members: seq<Uid>,
                         note: Content, draw: nat)
    requires IsDismissed(db, g)
    ensures Manage(db, g, u, change, note, draw).Refused?
    ensures Quit(db, g, u, note, draw).Refused?
    ensures CreateGroup(db, g, u, name, members, note, draw).Refused?
  {
  }

  lemma EventIsQuiet(db: Db, d: Db, x: ConvId, u: Uid, note: Content, draw: nat, g: ConvId)
    requires x != g && d.messages == db.messages && InsertEvent(d, x, u, note, draw).Ok?
    ensures Quiet(db, InsertEvent(d, x, u, note, draw).db, g)
    ensures InsertEvent(d, x, u, note, draw).db.groups == d.groups
  {
  }

  lemma ManageOtherIsQuiet(db: Db, x: ConvId, u: Uid, change: Change, note: Content, draw: nat, g: ConvId)
    requires x != g && g in db.groups && Manage(db, x, u, change, note, draw).Ok?
    ensures var d := Manage(db, x, u, change, note, draw).db;
      Quiet(db, d, g) && g in d.groups && d.groups[g] == db.groups[g]
  {
    hide InsertEvent, Quiet;
    EventIsQuiet(db, ApplyChange(db, x, change).db, x, u, note, draw, g);
  }

  lemma QuitOtherIsQuiet(db: Db, x: ConvId, u: Uid, note: Content, draw: nat, g: ConvId)
    requires x != g && g in db.groups && Quit(db, x, u, note, draw).Ok?
    ensures var d := Quit(db, x, u, note, draw).db;
      Quiet(db, d, g) && g in d.groups && d.groups[g] == db.groups[g]
  {
    hide InsertEvent, Quiet;
    QuitIsLeft(db, x, u, note, draw);
    EventIsQuiet(db, Left(db, x, u), x, u, note, draw, g);
  }

  lemma CreateOtherIsQuiet(db: Db, x: ConvId, owner: Uid, name: string, members: seq<Uid>, note: Content,
                           draw: nat, g: ConvId)
    requires x != g && g in db.groups && CreateGroup(db, x, owner, name, members, note, draw).Ok?
    ensures var d := CreateGroup(db, x, owner, name, members, note, draw).db;
      Quiet(db, d, g) && g in d.groups && d.groups[g] == db.groups[g]
  {
    hide InsertEvent, Quiet;
    EventIsQuiet(db, CreatedTables(db, x, owner, name, members), x, owner, note, draw, g);
  }

  // ---------------------------------------------------------------- every run

  /** Event frames carry the id of a stored row: only the group service produces them, after its
      transaction. */
  predicate HonestStep(db: Db, s: Step) {
    s.Frame? ==> IsEnvelope(db, s.m)
  }

  lemma StepIsQuiet(db: Db, s: Step, g: ConvId)
    requires IsDismissed(db, g) && Lawful(db, s) && HonestStep(db, s)
    ensures Quiet(db, Perform(db, s), g) && IsDismissed(Perform(db, s), g)
  {
    hide Quiet, Handle, HandleBatch, CreateGroup, Manage, Quit, Unused, FreshDraws;
    QuietReflexive(db, g);
    match s
    case Frame(m) =>
      FrameIsQuiet(db, m, g);
      HandleGrows(db, m);
    case Batch(ms) => BatchIsQuiet(db, ms, g);
    case OpenSingle(a, b, drawn) =>
      if EnsureSingle(db, a, b, drawn).Opened? {
        OpenIsQuiet(db, a, b, drawn, g);
      }
    case Create(x, owner, name, members, note, draw) =>
      if CreateGroup(db, x, owner, name, members, note, draw).Ok? {
        DismissedRefuses(db, g, owner, Dismiss, name, members, note, draw);
        CreateOtherIsQuiet(db, x, owner, name, members, note, draw, g);
      }
    case Govern(x, u, change, note, draw) =>
      if Manage(db, x, u, change, note, draw).Ok? {
        DismissedRefuses(db, g, u, change, "", [], note, draw);
        ManageOtherIsQuiet(db, x, u, change, note, draw, g);
      }
    case Leave(x, u, note, draw) =>
      if Quit(db, x, u, note, draw).Ok? {
        DismissedRefuses(db, g, u, Dismiss, "", [], note, draw);
        QuitOtherIsQuiet(db, x, u, note, draw, g);
      }
    case _ => SidelineIsQuiet(db, s, g);
  }

  lemma OpenIsQuiet(db: Db, a: Uid, b: Uid, drawn: ConvId, g: ConvId)
    requires EnsureSingle(db, a, b, drawn).Opened?
    ensures Quiet(db, EnsureSingle(db, a, b, drawn).db, g) && EnsureSingle(db, a, b, drawn).db.groups == db.groups
  {
  }

  lemma SidelineIsQuiet(db: Db, s: Step, g: ConvId)
    requires s.Presence? || s.SignUp?
    ensures Quiet(db, Perform(db, s), g) && Perform(db, s).groups == db.groups
  {
  }

  ghost predicate HonestRun(db: Db, steps: seq<Step>) {
    steps == [] || (HonestRun(db, steps[..|steps| - 1]) && HonestStep(Run(db, steps[..|steps| - 1]), steps[|steps| - 1]))
  }

  /** Dismissal is final: in every run that follows, the group stays dismissed and gets neither a
      group message nor an event. */
  lemma {:induction false} DismissedStaysQuiet(db: Db, steps: seq<Step>, g: ConvId)
    requires IsDismissed(db, g) && LawfulRun(db, steps) && HonestRun(db, steps)
    ensures Quiet(db, Run(db, steps), g) && IsDismissed(Run(db, steps), g)
  {
    hide Quiet, Perform, IsDismissed, Lawful;
    if steps == [] {
      QuietReflexive(db, g);
    } else {
      var k := |steps| - 1;
      DismissedStaysQuiet(db, steps[..k], g);
      StepIsQuiet(Run(db, steps[..k]), steps[k], g);
      QuietTransitive(db, Run(db, steps[..k]), Run(db, steps), g);
    }
  }

  lemma DismissTakesEffect(db: Db, g: ConvId, u: Uid, note: Content, draw: nat)
    requires AllInv(db) && Manage(db, g, u, Dismiss, note, draw).Ok?
    ensures var r := Manage(db, g, u, Dismiss, note, draw);
      && IsDismissed(r.db, g) && IsNotice(r.db, g, r.event)
      && forall id :: IsNotice(r.db, g, id) ==> r.db.messages[id].seqNo <= r.db.messages[r.event].seqNo
  {
    hide Numbered;
  }

  /** The dismiss event keeps the highest number among the group's messages and events, for ever. */
  lemma {:induction false} DismissEventIsLast(db: Db, g: ConvId, u: Uid, note: Content, draw: nat, steps: seq<Step>)
    requires AllInv(db) && Manage(db, g, u, Dismiss, note, draw).Ok?
    requires var d := Manage(db, g, u, Dismiss, note, draw).db; LawfulRun(d, steps) && HonestRun(d, steps)
    ensures var r := Manage(db, g, u, Dismiss, note, draw);
      var last := Run(r.db, steps);
      && IsNotice(last, g, r.event)
      && forall id :: IsNotice(last, g, id) ==> last.messages[id].seqNo <= last.messages[r.event].seqNo
  {
    hide Manage, AllInv, Run, LawfulRun, HonestRun;
    DismissTakesEffect(db, g, u, note, draw);
    DismissedStaysQuiet(Manage(db, g, u, Dismiss, note, draw).db, steps, g);
  }

  // ---------------------------------------------------------------- the envelope of an event

  /** An event frame leaves the tables alone exactly when its row is already there, and it is fanned
      out to the active online members either way, even in a dismissed group. */
  lemma {:induction false} EnvelopeIsFannedOut(db: Db, m: Msg)
    requires SeqInv(db) && m.kind == SystemEvent && m.id != NoId && m.convId != ""
    ensures var h := Handle(db, m);
      && h.status == Accepted
      && (h.db == db <==> m.id in db.messages)
      && (m.id in db.messages ==>
            h.pushes == Fanout(db, m.(content := db.messages[m.id].content), db.messages[m.id].seqNo,
                               ActiveUids(Roster(db, m.convId))))
  {
    NextNumberIsFree(db, m.convId);
    hide Fanout, Numbered, SeqInv;
    assert m.id !in db.messages ==> Handle(db, m).db.messages != db.messages;
  }
}
