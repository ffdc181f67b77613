// What one transaction of the persist worker leaves for good: rows whose ids agree with their names,
// pushes that agree with their rows, and frames that need not be stored again.
module Delivered {
  import opened Chat
  import opened Tables
  import opened PersistSpec
  import opened PersistInvariants
  import opened BatchSpec
  import opened BatchBulk
  import opened GroupSpec
  import opened GroupInvariants
  import opened ChatRuns

  // ---------------------------------------------------------------- what later tables still have

  /** No row, user, conversation or index entry is ever lost, and conversations that are no groups
      keep their members. */
  ghost predicate Later(a: Db, b: Db) {
    && a.users <= b.users
    && (forall id :: id in a.messages ==> id in b.messages && b.messages[id] == a.messages[id])
    && (forall k :: k in a.singles ==> k in b.singles && b.singles[k] == a.singles[k])
    && (forall c :: c in a.convs ==> c in b.convs && (c !in a.groups ==> c !in b.groups))
    && (forall c, u :: c in a.convs && c !in a.groups && (c, u) in a.convMembers ==> (c, u) in b.convMembers)
  }

  lemma LaterTransitive(a: Db, b: Db, c: Db)
    requires Later(a, b) && Later(b, c)
    ensures Later(a, c)
  {
  }

  lemma GrowsIsLater(a: Db, b: Db)
    requires Grows(a, b)
    ensures Later(a, b)
  {
  }

  lemma AppendIsLater(db: Db, id: Id, c: ConvId, from: Uid, kind: Kind, content: Content)
    requires id !in db.messages
    ensures Later(db, Append(db, id, c, from, kind, content))
  {
  }

  lemma {:induction false} AppendEachIsLater(db: Db, ms: seq<Msg>)
    requires AllNew(db, ms)
    ensures Later(db, AppendEach(db, ms))
  {
    if ms != [] {
      var k := |ms| - 1;
      AppendEachIsLater(db, ms[..k]);
      var d, p := AppendEach(db, ms[..k]), ms[k];
      NotAppended(db, ms[..k], p);
      AppendIsLater(d, p.id, p.convId, p.fromUid, p.kind, p.content);
      hide Append;
      LaterTransitive(db, d, AppendMsg(d, p));
    }
  }

  lemma EventIsLater(db: Db, d: Db, g: ConvId, u: Uid, note: Content, draw: nat)
    requires Later(db, d) && InsertEvent(d, g, u, note, draw).Ok?
    ensures Later(db, InsertEvent(d, g, u, note, draw).db)
  {
    hide Numbered;
    AppendIsLater(d, Drawn(draw), g, u, SystemEvent, note);
    hide Append;
    LaterTransitive(db, d, InsertEvent(d, g, u, note, draw).db);
  }

  lemma ChangeIsLater(db: Db, g: ConvId, change: Change)
    requires g in db.groups && ApplyChange(db, g, change).Done?
    ensures Later(db, ApplyChange(db, g, change).db)
  {
  }

  /** Every step of the write side leads to later tables. */
  lemma StepIsLater(db: Db, s: Step)
    requires AllInv(db) && Lawful(db, s) && !s.Batch?
    ensures Later(db, Perform(db, s))
  {
    hide SeqInv, SingleInv, GroupInv, Handle, InsertEvent, ApplyChange, Later;
    LaterReflexive(db);
    match s
    case Frame(m) =>
      HandleGrows(db, m);
      GrowsIsLater(db, Handle(db, m).db);
    case OpenSingle(a, b, drawn) => OpenIsLater(db, a, b, drawn);
    case Create(g, owner, name, members, note, draw) =>
      if CreateGroup(db, g, owner, name, members, note, draw).Ok? {
        CreatedIsLater(db, g, owner, name, members);
        EventIsLater(db, CreatedTables(db, g, owner, name, members), g, owner, note, draw);
      }
    case Govern(g, operator, change, note, draw) =>
      if Manage(db, g, operator, change, note, draw).Ok? {
        ChangeIsLater(db, g, change);
        EventIsLater(db, ApplyChange(db, g, change).db, g, operator, note, draw);
      }
    case Leave(g, u, note, draw) =>
      if Quit(db, g, u, note, draw).Ok? {
        QuitIsLeft(db, g, u, note, draw);
        LeftIsLater(db, g, u);
        EventIsLater(db, Left(db, g, u), g, u, note, draw);
      }
    case Presence(online) => SidelineIsLater(db, s);
    case SignUp(u) => SidelineIsLater(db, s);
  }

  lemma LaterReflexive(db: Db)
    ensures Later(db, db)
  {
  }

  lemma OpenIsLater(db: Db, a: Uid, b: Uid, drawn: ConvId)
    requires Unused(db, drawn)
    ensures EnsureSingle(db, a, b, drawn).Opened? ==> Later(db, EnsureSingle(db, a, b, drawn).db)
  {
  }

  lemma CreatedIsLater(db: Db, g: ConvId, owner: Uid, name: string, members: seq<Uid>)
    requires g !in db.convs
    ensures Later(db, CreatedTables(db, g, owner, name, members))
  {
  }

  lemma LeftIsLater(db: Db, g: ConvId, u: Uid)
    requires g in db.groups
    ensures Later(db, Left(db, g, u))
  {
  }

  lemma SidelineIsLater(db: Db, s: Step)
    requires s.Presence? || s.SignUp?
    ensures Later(db, Perform(db, s))
  {
  }

  // ---------------------------------------------------------------- one row at most

  /** The id a frame is stored under, in tables that know its conversation. */
  function IdIn(db: Db, m: Msg): Id {
    if m.kind == Single then Prepare(db, m).id else AssignId(m).id
  }

  lemma StoreAddsOwnRow(d: Db, m: Msg, targets: seq<Uid>)
    ensures StoreAndPush(d, m, targets).db.messages.Keys <= d.messages.Keys + {AssignId(m).id}
    ensures StoreAndPush(d, m, targets).db.singles == d.singles
  {
    hide Numbered;
  }

  lemma ValidatedIsResolved(db: Db, m: Msg)
    requires m.kind == Single
    ensures match ValidateSingle(db, m)
      case Pass(d, m1) => d.messages == db.messages && ResolveOne(d, m) == m1
      case _ => true
  {
  }

  /** Handling a frame adds at most one row, under the id that belongs to the frame. */
  lemma HandleAddsOwnRow(db: Db, m: Msg)
    requires m.kind != Unset
    ensures Handle(db, m).db.messages.Keys <= db.messages.Keys + {IdIn(Handle(db, m).db, m)}
  {
    hide StoreAndPush, ValidateSingle;
    match m.kind
    case Single =>
      ValidatedIsResolved(db, m);
      match ValidateSingle(db, m) {
        case Pass(d, m1) =>
          StoreAddsOwnRow(d, m1, []);
          SameSingles(d, StoreAndPush(d, m1, []).db, m);
        case _ =>
      }
    case _ => StoreAddsOwnRow(db, m, ActiveUids(Roster(db, m.convId)));
  }

  lemma SameSingles(a: Db, b: Db, m: Msg)
    requires a.singles == b.singles
    ensures ResolveOne(a, m) == ResolveOne(b, m)
  {
  }

  // ---------------------------------------------------------------- ids agree with rows

  ghost predicate TidyRow(id: Id, row: Row) {
    && '|' !in row.convId && '|' !in row.fromUid
    && (id.Named? ==> exists cli :: id.name == IdName(row.convId, row.fromUid, cli))
  }

  /** No conversation or group that exists has a bar in its id. */
  ghost predicate CleanNames(db: Db) {
    CleanConvs(db) && forall g :: g in db.groups ==> '|' !in g
  }

  /** A name-based id belongs to the conversation and the sender it was derived from. */
  ghost predicate Tidy(db: Db) {
    CleanNames(db) && forall id :: id in db.messages ==> TidyRow(id, db.messages[id])
  }

  /** A frame on its way through the worker: without an id, or with the one derived for it. Its
      conversation, which a client may have named, need not exist. */
  predicate Derived(m: Msg) {
    '|' !in m.fromUid && (m.id == NoId || (m.convId != "" && m.id == DeriveId(m)))
  }

  predicate WellNamed(m: Msg) {
    '|' !in m.convId && Derived(m)
  }

  /** An event frame names the row that the group transaction has written. */
  predicate Envelope(db: Db, m: Msg) {
    m.id != NoId && m.id in db.messages && IdFits(db, m)
  }

  /** The random values drawn for the frame collide with nothing. */
  ghost predicate Fresh(db: Db, m: Msg) {
    && DrawsUnused(db, m)
    && (m.id == NoId ==> Drawn(m.draw) !in db.messages)
    && (m.id.Drawn? ==> IdFits(db, m))
  }

  ghost predicate Sound(db: Db, m: Msg) {
    if m.kind == SystemEvent then Envelope(db, m) else Derived(m) && Fresh(db, m)
  }

  lemma NamedFits(db: Db, m: Msg)
    requires Tidy(db) && '|' !in m.convId && '|' !in m.fromUid
    requires m.id == Named(IdName(m.convId, m.fromUid, m.cliId))
    ensures IdFits(db, m)
  {
    if m.id in db.messages {
      var row := db.messages[m.id];
      assert TidyRow(m.id, row);
      var cli :| m.id.name == IdName(row.convId, row.fromUid, cli);
      IdNameInjective(m.convId, m.fromUid, m.cliId, row.convId, row.fromUid, cli);
    }
  }

  lemma AppendIsTidy(db: Db, m: Msg)
    requires Tidy(db) && TidyRow(m.id, Row(m.convId, 1, m.fromUid, m.kind, m.content))
    ensures Tidy(AppendMsg(db, m))
  {
  }

  lemma {:induction false} FanoutOfRow(db: Db, m: Msg, n: int, targets: seq<Uid>)
    requires m.id in db.messages && db.messages[m.id].seqNo == n && IdFits(db, m)
    requires db.messages[m.id].content == m.content
    ensures forall p :: p in Fanout(db, m, n, targets) ==> PushOfRow(db, p)
  {
    if targets != [] {
      FanoutOfRow(db, m, n, targets[..|targets| - 1]);
    }
  }

  lemma AssignedFits(db: Db, m: Msg)
    requires Tidy(db)
    requires Storable(db, m)
    ensures IdFits(db, AssignId(m))
    ensures AssignId(m).id in db.messages || TidyRow(AssignId(m).id, Row(m.convId, 1, m.fromUid, m.kind, m.content))
  {
    if !Envelope(db, m) {
      if m.cliId != "" {
        NamedFits(db, AssignId(m));
      }
    }
  }

  /** The frame may be stored: its id, given or to be derived, fits the row it may find. */
  ghost predicate Storable(db: Db, m: Msg) {
    || Envelope(db, m)
    || (WellNamed(m) && (m.id == NoId ==> Drawn(m.draw) !in db.messages) && (m.id.Drawn? ==> IdFits(db, m)))
  }

  /** The two ways storing goes, with what is pushed. */
  lemma StoreCases(db: Db, m: Msg, targets: seq<Uid>)
    requires SeqInv(db)
    ensures var m1, h := AssignId(m), StoreAndPush(db, m, targets);
      if m1.id in db.messages then
        var row := db.messages[m1.id];
        h.db == db && h.msg == m1.(content := row.content) && h.pushes == Pushes(db, h.msg, row.seqNo, targets)
      else
        h.db == AppendMsg(db, m1) && h.msg == m1 && h.pushes == Pushes(h.db, m1, Counter(db, m1.convId) + 1, targets)
  {
    NextNumberIsFree(db, AssignId(m).convId);
    hide Numbered, Pushes, Append, SeqInv;
  }

  lemma PushesOfRow(db: Db, m: Msg, n: int, targets: seq<Uid>)
    requires m.id in db.messages && db.messages[m.id].seqNo == n && IdFits(db, m)
    requires db.messages[m.id].content == m.content
    ensures forall p :: p in Pushes(db, m, n, targets) ==> PushOfRow(db, p)
  {
    FanoutOfRow(db, m, n, targets);
    hide Fanout;
  }

  lemma AppendedFits(db: Db, m: Msg)
    ensures var d := AppendMsg(db, m);
      m.id in d.messages && d.messages[m.id].seqNo == Counter(db, m.convId) + 1 && IdFits(d, m)
      && d.messages[m.id].content == m.content
  {
  }

  lemma NamedStays(m: Msg, content: Content)
    requires WellNamed(m) && m.convId != ""
    ensures WellNamed(AssignId(m)) && WellNamed(AssignId(m).(content := content))
  {
  }

  lemma StoreIsSound(db: Db, m: Msg, targets: seq<Uid>)
    requires SeqInv(db) && Tidy(db) && m.convId != "" && Storable(db, m)
    ensures var h := StoreAndPush(db, m, targets);
      && Tidy(h.db)
      && (forall p :: p in h.pushes ==> PushOfRow(h.db, p))
      && (WellNamed(m) ==> WellNamed(h.msg))
  {
    AssignedFits(db, m);
    StoreCases(db, m, targets);
    var m1, h := AssignId(m), StoreAndPush(db, m, targets);
    if WellNamed(m) {
      NamedStays(m, h.msg.content);
    }
    if m1.id !in db.messages {
      AppendedFits(db, m1);
      hide *;
      AppendIsTidy(db, m1);
      PushesOfRow(h.db, m1, Counter(db, m1.convId) + 1, targets);
    } else {
      hide Pushes, StoreAndPush, WellNamed, AssignId, PushOfRow, SeqInv, Storable, Tidy;
      PushesOfRow(db, h.msg, db.messages[m1.id].seqNo, targets);
    }
  }

  lemma ValidatedIsSound(db: Db, m: Msg)
    requires SingleInv(db) && CleanNames(db) && Derived(m) && Fresh(db, m)
    ensures var v := ValidateSingle(db, m); v.Pass? ==>
      && v.db.messages == db.messages && WellNamed(v.msg) && v.msg.convId != "" && v.msg.id == m.id && v.msg.draw == m.draw
      && (m.id.Drawn? ==> IdFits(db, v.msg))
  {
  }

  /** Handling a frame leaves tidy tables, and every push it sends out carries a stored row. */
  lemma HandleIsSound(db: Db, m: Msg)
    requires Inv(db) && Tidy(db) && Sound(db, Normalise(m))
    requires DrawsUnused(db, m)
    ensures var h := Handle(db, m);
      && Tidy(h.db)
      && (forall p :: p in h.pushes ==> PushOfRow(h.db, p))
      && (m.kind == Single ==> Derived(h.msg))
  {
    TidyNames(db);
    hide SeqInv, SingleInv, StoreAndPush, Tidy, Envelope, CleanNames, AssignId;
    var m0 := Normalise(m);
    assert m0.kind == SystemEvent ==> Envelope(db, m0);
    assert m0.kind != SystemEvent ==> Derived(m0) && Fresh(db, m0);
    match m0.kind
    case SystemEvent =>
      if m0.id != NoId && m0.convId != "" {
        StoreIsSound(db, m0, ActiveUids(Roster(db, m0.convId)));
      }
    case Group =>
      if GroupAccepts(db, m0) {
        GroupIsNamed(db, m0.convId);
        StoreIsSound(db, m0, ActiveUids(Roster(db, m0.convId)));
      }
    case Single =>
      ValidatedIsSound(db, m0);
      match ValidateSingle(db, m0) {
        case Pass(d, m1) =>
          OpenedKeeps(db, m0);
          StoreIsSound(d, m1, []);
        case _ =>
      }
    case _ =>
  }

  lemma TidyNames(db: Db)
    requires Tidy(db)
    ensures CleanNames(db)
  {
  }

  lemma GroupIsNamed(db: Db, g: ConvId)
    requires CleanNames(db) && g in db.groups
    ensures '|' !in g
  {
  }

  lemma SameRowsTidy(db: Db, d: Db)
    requires Tidy(db) && d.messages == db.messages && CleanNames(d)
    ensures Tidy(d)
  {
  }

  lemma OpenedNames(db: Db, m: Msg)
    requires Tidy(db) && ValidateSingle(db, m).Pass? && DrawsUnused(db, m)
    ensures CleanNames(ValidateSingle(db, m).db)
  {
    hide SingleKey;
  }

  lemma OpenedKeeps(db: Db, m: Msg)
    requires Inv(db) && Tidy(db) && ValidateSingle(db, m).Pass? && DrawsUnused(db, m)
    ensures var d := ValidateSingle(db, m).db; SeqInv(d) && Tidy(d) && d.messages == db.messages
  {
    hide SeqInv, SingleInv, Tidy, SingleKey;
    if m.convId == "" {
      OpenKeepsSeqInv(db, m.fromUid, m.toUid, m.newConv);
    }
    OpenedNames(db, m);
    SameRowsTidy(db, ValidateSingle(db, m).db);
  }

  // ---------------------------------------------------------------- whom a push is for

  /** The push names the frame: its id, its conversation, its sender and its receiver. */
  predicate IsFor(p: Push, m: Msg) {
    p.id == m.id && p.convId == m.convId && p.fromUid == m.fromUid && p.toUid == m.toUid
  }

  predicate PushedTo(pushes: seq<Push>, m: Msg) {
    exists p :: p in pushes && IsFor(p, m)
  }

  /** And it carries the client's id and the type, without a mention. */
  predicate Bears(p: Push, m: Msg) {
    IsFor(p, m) && p.cliId == m.cliId && p.kind == m.kind && !p.mention
  }

  predicate HasPush(pushes: seq<Push>, m: Msg) {
    exists p :: p in pushes && Bears(p, m)
  }

  /** Every frame has its push, and there are pushes for nothing else. */
  ghost predicate Addressed(pushes: seq<Push>, ms: seq<Msg>) {
    && (forall p :: p in pushes ==> exists m :: m in ms && Bears(p, m))
    && (forall m :: m in ms ==> HasPush(pushes, m))
  }

  lemma AddressedJoin(ps: seq<Push>, ms: seq<Msg>, qs: seq<Push>, ns: seq<Msg>, all: seq<Msg>)
    requires Addressed(ps, ms) && Addressed(qs, ns) && forall m :: m in all <==> m in ms || m in ns
    ensures Addressed(ps + qs, all)
  {
    hide Bears;
    forall m | m in all
      ensures HasPush(ps + qs, m)
    {
      if m in ms {
        var p :| p in ps && Bears(p, m);
        assert p in ps + qs;
      } else {
        var p :| p in qs && Bears(p, m);
        assert p in ps + qs;
      }
    }
  }

  lemma OneIsAddressed(p: Push, m: Msg)
    requires Bears(p, m)
    ensures Addressed([p], [m]) && Addressed([], [])
  {
    hide Bears;
    assert p in [p] && m in [m];
  }

  lemma {:induction false} FreshAreAddressed(db: Db, ms: seq<Msg>, k: nat)
    requires k <= |ms|
    ensures Addressed(FreshPushes(db, ms, k), ms[..k])
  {
    hide NumberOf, Addressed;
    if k == 0 {
      assert Addressed([], []) by { NobodyIsAddressed(); }
    } else {
      FreshAreAddressed(db, ms, k - 1);
      var p := PushFor(ms[k - 1], NumberOf(db, ms, k - 1), ms[k - 1].toUid, false);
      OneIsAddressed(p, ms[k - 1]);
      assert ms[..k] == ms[..k - 1] + [ms[k - 1]];
      AddressedJoin(FreshPushes(db, ms, k - 1), ms[..k - 1], [p], [ms[k - 1]], ms[..k]);
    }
  }

  lemma NobodyIsAddressed()
    ensures Addressed([], [])
  {
  }

  lemma {:induction false} ReplaysAreAddressed(db: Db, ms: seq<Msg>)
    requires forall m :: m in ms ==> m.id in db.messages
    ensures Addressed(ReplayPushes(db, ms), ms)
  {
    hide Addressed;
    if ms == [] {
      NobodyIsAddressed();
    } else {
      var k := |ms| - 1;
      ReplaysAreAddressed(db, ms[..k]);
      OneIsAddressed(ReplayPush(db, ms[k]), ms[k]);
      assert ms == ms[..k] + [ms[k]];
      AddressedJoin(ReplayPushes(db, ms[..k]), ms[..k], [ReplayPush(db, ms[k])], [ms[k]], ms);
    }
  }

  lemma {:induction false} KnownAreAll(db: Db, ms: seq<Msg>)
    ensures forall m :: m in ms && m.id in db.messages ==> m in Known(db, ms)
  {
    if ms != [] {
      KnownAreAll(db, ms[..|ms| - 1]);
      assert ms == ms[..|ms| - 1] + [ms[|ms| - 1]];
    }
  }

  /** A batch that goes through pushes exactly the frames that it keeps. */
  lemma KeptAreAddressed(db: Db, kept: seq<Msg>)
    requires FinishBatch(db, kept).status == BatchStatus.Done
    ensures Addressed(FinishBatch(db, kept).pushes, kept)
  {
    hide Known, Unknown, Addressed, AppendEach, ReplayPushes, FreshPushes, SomeNumberTaken, UsersExist, ConvsExist;
    var replays, news := Known(db, kept), Unknown(db, kept);
    KnownAreStored(db, kept);
    KnownAreAll(db, kept);
    UnknownAreNew(db, kept);
    ReplaysAreAddressed(db, replays);
    if news == [] {
      NobodyIsAddressed();
      AddressedJoin([], [], ReplayPushes(db, replays), replays, kept);
      assert [] + ReplayPushes(db, replays) == ReplayPushes(db, replays);
    } else {
      FreshAreAddressed(db, news, |news|);
      assert news[..|news|] == news;
      AddressedJoin(FreshPushes(db, news, |news|), news, ReplayPushes(db, replays), replays, kept);
    }
  }

  predicate SameAddress(a: Msg, b: Msg) {
    a.convId == b.convId && a.fromUid == b.fromUid && a.toUid == b.toUid
  }

  /** Frames with one id go to one receiver, in one conversation and from one sender. */
  ghost predicate OneAddress(ms: seq<Msg>) {
    forall a, b :: a in ms && b in ms && a.id == b.id ==> SameAddress(a, b)
  }

  lemma SameIdIsSame(ms: seq<Msg>, a: Msg, b: Msg)
    requires DistinctIds(ms) && a in ms && b in ms && a.id == b.id
    ensures a == b
  {
  }

  lemma ServedOnce(pushes: seq<Push>, kept: seq<Msg>, a: Msg, b: Msg)
    requires Addressed(pushes, kept) && DistinctIds(kept) && PushedTo(pushes, a) && PushedTo(pushes, b) && a.id == b.id
    ensures SameAddress(a, b)
  {
    hide DistinctIds;
    var p :| p in pushes && IsFor(p, a);
    var r :| r in kept && Bears(p, r);
    var q :| q in pushes && IsFor(q, b);
    var t :| t in kept && Bears(q, t);
    SameIdIsSame(kept, r, t);
  }

  lemma ServedLike(pushes: seq<Push>, q: Msg, m: Msg)
    requires PushedTo(pushes, q) && SameAddress(q, m) && q.id == m.id
    ensures PushedTo(pushes, m)
  {
    var p :| p in pushes && IsFor(p, q);
    assert IsFor(p, m);
  }

  /** Who is served by a batch, exactly: when it goes through, every frame of it has a push that names its
      receiver if and only if its frames with equal ids agree in receiver, conversation and sender.
      Otherwise a frame that repeats an id is dropped with its receiver. */
  lemma {:induction false} BatchServesEach(db: Db, rest: seq<Msg>)
    requires FinishBatch(db, Firsts(rest)).status == BatchStatus.Done
    ensures (forall m :: m in rest ==> PushedTo(FinishBatch(db, Firsts(rest)).pushes, m)) <==> OneAddress(rest)
  {
    hide FinishBatch, Firsts, DistinctIds, PushedTo, SameAddress, Addressed;
    var kept, pushes := Firsts(rest), FinishBatch(db, Firsts(rest)).pushes;
    KeptAreAddressed(db, kept);
    FirstsCover(rest);
    FirstsDistinct(rest);
    if OneAddress(rest) {
      forall m | m in rest
        ensures PushedTo(pushes, m)
      {
        assert m.id in Ids(kept);
        var q :| q in kept && q.id == m.id;
        KeptIsServed(pushes, kept, q);
        ServedLike(pushes, q, m);
      }
    }
    if forall m :: m in rest ==> PushedTo(pushes, m) {
      forall a, b | a in rest && b in rest && a.id == b.id
        ensures SameAddress(a, b)
      {
        ServedOnce(pushes, kept, a, b);
      }
    }
  }

  lemma KeptIsServed(pushes: seq<Push>, kept: seq<Msg>, q: Msg)
    requires Addressed(pushes, kept) && q in kept
    ensures PushedTo(pushes, q)
  {
    hide IsFor;
    assert HasPush(pushes, q);
    var p :| p in pushes && Bears(p, q);
    assert IsFor(p, q);
  }

  // ---------------------------------------------------------------- the bulk transaction

  lemma {:induction false} AppendEachIsTidy(db: Db, ms: seq<Msg>)
    requires Tidy(db) && forall m :: m in ms ==> TidyRow(m.id, Row(m.convId, 1, m.fromUid, m.kind, m.content))
    ensures Tidy(AppendEach(db, ms))
  {
    hide Tidy, TidyRow;
    if ms != [] {
      AppendEachIsTidy(db, ms[..|ms| - 1]);
      AppendIsTidy(AppendEach(db, ms[..|ms| - 1]), ms[|ms| - 1]);
    }
  }

  lemma {:induction false} FreshPushesMean(db: Db, ms: seq<Msg>, k: nat, d: Db)
    requires k <= |ms| && DistinctIds(ms) && d == AppendEach(db, ms)
    ensures forall p :: p in FreshPushes(db, ms, k) ==> PushOfRow(d, p)
  {
    hide AppendEach, NumberOf;
    if k > 0 {
      FreshPushesMean(db, ms, k - 1, d);
      AppendedRow(db, ms, k - 1);
    }
  }

  lemma {:induction false} AppendedRow(db: Db, ms: seq<Msg>, k: nat)
    requires k < |ms| && DistinctIds(ms)
    ensures ms[k].id in AppendEach(db, ms).messages
    ensures AppendEach(db, ms).messages[ms[k].id] == NewRow(db, ms, k)
  {
    hide AppendEach;
    AppendEachIsBulk(db, ms);
    RowsOfBatch(db, ms, |ms|, k);
  }

  /** A replayed frame is pushed with a stored row exactly when its id belongs to its conversation and
      sender. */
  lemma ReplayPushFits(db: Db, m: Msg, d: Db)
    requires m.id in db.messages && Later(db, d)
    ensures PushOfRow(d, ReplayPush(db, m)) <==> IdFits(db, m)
  {
  }

  lemma {:induction false} ReplayPushesCome(db: Db, ms: seq<Msg>)
    requires forall m :: m in ms ==> m.id in db.messages
    ensures forall p :: p in ReplayPushes(db, ms) ==> exists m :: m in ms && p == ReplayPush(db, m)
  {
    if ms != [] {
      ReplayPushesCome(db, ms[..|ms| - 1]);
    }
  }

  /** The frames of a batch as the bulk transaction gets them. */
  ghost predicate BatchSound(db: Db, rest: seq<Msg>) {
    forall m :: m in rest ==> m.id != NoId && Derived(m) && (m.id.Drawn? ==> IdFits(db, m))
  }

  lemma BatchFits(db: Db, rest: seq<Msg>, m: Msg)
    requires Tidy(db) && BatchSound(db, rest) && m in rest && '|' !in m.convId
    ensures IdFits(db, m) && TidyRow(m.id, Row(m.convId, 1, m.fromUid, m.kind, m.content))
  {
    if m.cliId != "" {
      NamedFits(db, m);
    }
  }

  /** What the guard lets through names conversations that exist. */
  lemma GuardedNames(db: Db, news: seq<Msg>, m: Msg)
    requires CleanNames(db) && ConvsExist(db, news) && m in news
    ensures '|' !in m.convId
  {
  }

  lemma {:induction false} FinishTables(db: Db, kept: seq<Msg>)
    ensures var d, news := FinishBatch(db, kept).db, Unknown(db, kept);
      d == db || (d == AppendEach(db, news) && ConvsExist(db, news))
  {
  }

  lemma {:induction false} FinishIsTidy(db: Db, rest: seq<Msg>)
    requires AllInv(db) && Tidy(db) && BatchSound(db, rest)
    ensures var d := FinishBatch(db, Firsts(rest)).db; AllInv(d) && Tidy(d) && Later(db, d)
  {
    TidyNames(db);
    hide AllInv, Tidy, BatchSound, Later, Unknown, Firsts, AppendEach, TidyRow, ConvsExist, CleanNames, FinishBatch,
         AllNew;
    var news := Unknown(db, Firsts(rest));
    FinishTables(db, Firsts(rest));
    FirstsCover(rest);
    UnknownAreNew(db, Firsts(rest));
    LaterReflexive(db);
    NewsAreNew(db, rest);
    if ConvsExist(db, news) {
      forall m | m in news
        ensures TidyRow(m.id, Row(m.convId, 1, m.fromUid, m.kind, m.content))
      {
        GuardedNames(db, news, m);
        BatchFits(db, rest, m);
      }
      AppendEachKeeps(db, news);
      AppendEachIsLater(db, news);
      AppendEachIsTidy(db, news);
    }
  }

  /** The push names a conversation with a bar, as a frame of the batch does. */
  ghost predicate BarredIn(ms: seq<Msg>, p: Push) {
    '|' in p.convId && exists m :: m in ms && m.convId == p.convId
  }

  /** The pushes of the batch carry stored rows, but for replays of frames that name a conversation with
      a bar. */
  lemma {:induction false} FinishIsSound(db: Db, rest: seq<Msg>)
    requires AllInv(db) && Tidy(db) && BatchSound(db, rest)
    ensures var f := FinishBatch(db, Firsts(rest)); forall p :: p in f.pushes ==> PushOfRow(f.db, p) || BarredIn(rest, p)
  {
    hide AllInv, Tidy, BatchSound, Later, Known, Unknown, Firsts, AppendEach, DistinctIds, Derived, IdFits,
         PushOfRow, ReplayPushes, FreshPushes, SomeNumberTaken, UsersExist, ConvsExist;
    FinishIsTidy(db, rest);
    var kept, d := Firsts(rest), FinishBatch(db, Firsts(rest)).db;
    var replays, news := Known(db, kept), Unknown(db, kept);
    FirstsCover(rest);
    KnownAreStored(db, kept);
    FirstsDistinct(rest);
    UnknownDistinct(db, kept);
    ReplayPushesCome(db, replays);
    forall p | p in ReplayPushes(db, replays)
      ensures PushOfRow(d, p) || BarredIn(rest, p)
    {
      var m :| m in replays && p == ReplayPush(db, m);
      ReplayPushFits(db, m, d);
      if '|' !in m.convId {
        BatchFits(db, rest, m);
      }
    }
    if FinishBatch(db, kept).status == BatchStatus.Done && news != [] {
      FreshPushesMean(db, news, |news|, d);
    }
  }

  // ---------------------------------------------------------------- delivered for good

  /** A single-chat frame with a client id that the persist worker has to accept: both users exist,
      and the conversation it names, if any, is a single one with the sender in it. */
  predicate Deliverable(db: Db, m: Msg) {
    && m.kind == Single && m.id == NoId && m.cliId != ""
    && m.fromUid in db.users && m.toUid in db.users
    && if m.convId == "" then m.fromUid != m.toUid
       else m.convId in db.convs && m.convId !in db.groups && (m.convId, m.fromUid) in db.convMembers
  }

  lemma DeliverableStays(a: Db, b: Db, m: Msg)
    requires Later(a, b) && Deliverable(a, m)
    ensures Deliverable(b, m)
  {
  }

  /** The frame has its row, under the id that every delivery of it computes. */
  predicate Recorded(db: Db, m: Msg) {
    match m.kind
    case Single => m.id == NoId && m.cliId != "" && !IsEarly(db, m) && Prepare(db, m).id in db.messages
    case Group => m.id == NoId && m.cliId != "" && AssignId(m).id in db.messages
    case SystemEvent => m.id != NoId && m.id in db.messages
    case _ => false
  }

  /** A push of the row under this id for this receiver. */
  predicate RowPushed(db: Db, pushes: seq<Push>, id: Id, to: Uid) {
    exists p :: p in pushes && p.id == id && p.toUid == to && PushOfRow(db, p)
  }

  /** The frame has its row, and its receiver a push of that row. */
  predicate Covered(db: Db, pushes: seq<Push>, m: Msg) {
    m.kind == Single && Recorded(db, m) && RowPushed(db, pushes, Prepare(db, m).id, m.toUid)
  }

  lemma PreparedStays(a: Db, b: Db, m: Msg)
    requires Later(a, b) && !IsEarly(a, m)
    ensures !IsEarly(b, m) && Prepare(b, m) == Prepare(a, m)
  {
  }

  lemma RecordedStays(a: Db, b: Db, m: Msg)
    requires Later(a, b) && Recorded(a, m)
    ensures Recorded(b, m)
  {
    if m.kind == Single {
      PreparedStays(a, b, m);
    }
  }

  lemma CoveredStays(a: Db, b: Db, ps: seq<Push>, qs: seq<Push>, m: Msg)
    requires Later(a, b) && Covered(a, ps, m) && forall p :: p in ps ==> p in qs
    ensures Covered(b, qs, m)
  {
    PreparedStays(a, b, m);
    RecordedStays(a, b, m);
    hide Prepare;
    var p :| p in ps && p.id == Prepare(a, m).id && p.toUid == m.toUid && PushOfRow(a, p);
    assert p in qs && PushOfRow(b, p);
  }

  lemma PushedIsCovered(db: Db, pushes: seq<Push>, m: Msg)
    requires m.kind == Single && m.id == NoId && m.cliId != "" && !IsEarly(db, m)
    requires RowPushed(db, pushes, Prepare(db, m).id, m.toUid)
    ensures Covered(db, pushes, m)
  {
    hide Prepare;
  }

  lemma StoreCovers(d: Db, m: Msg)
    requires SeqInv(d) && m.kind == Single && IdFits(d, AssignId(m))
    ensures var h, id := StoreAndPush(d, m, []), AssignId(m).id;
      h.status == Accepted && h.db.singles == d.singles && id in h.db.messages && RowPushed(h.db, h.pushes, id, m.toUid)
  {
    var m1, h := AssignId(m), StoreAndPush(d, m, []);
    StoreCases(d, m, []);
    AppendedFits(d, m1);
    StoreIsAccepted(d, m);
    hide StoreAndPush, PushOfRow, SeqInv, Append, IdFits, AssignId;
    if m1.id in d.messages {
      PushesOfRow(d, h.msg, d.messages[m1.id].seqNo, []);
      SinglePush(d, h.msg, d.messages[m1.id].seqNo);
    } else {
      PushesOfRow(h.db, m1, Counter(d, m1.convId) + 1, []);
      SinglePush(h.db, m1, Counter(d, m1.convId) + 1);
    }
  }

  lemma SinglePush(d: Db, m: Msg, n: int)
    requires m.kind == Single
    ensures exists p :: p in Pushes(d, m, n, []) && p.id == m.id && p.toUid == m.toUid
  {
    assert PushFor(m, n, m.toUid, false) in Pushes(d, m, n, []);
  }

  lemma StoreIsAccepted(d: Db, m: Msg)
    requires SeqInv(d)
    ensures var h := StoreAndPush(d, m, []);
      h.status == Accepted && h.db.singles == d.singles && AssignId(m).id in h.db.messages
    ensures AssignId(m).kind == m.kind && AssignId(m).toUid == m.toUid
  {
    NextNumberIsFree(d, AssignId(m).convId);
    hide SeqInv, Numbered, Pushes;
  }

  /** The id of a frame that has to be accepted fits whatever row it finds. */
  lemma DeliverableFits(db: Db, d: Db, m: Msg, r: Msg)
    requires SingleInv(db) && Deliverable(db, m) && CleanNames(d) && Tidy(d)
    requires r == m.(convId := r.convId) && r.convId in d.convs
    ensures IdFits(d, AssignId(r))
  {
    assert CleanUid(m.fromUid);
    NamedFits(d, AssignId(r));
  }

  /** Handling a deliverable frame covers it. */
  lemma HandleCovers(db: Db, m: Msg)
    requires Inv(db) && Tidy(db) && Deliverable(db, m) && DrawsUnused(db, m)
    ensures Handle(db, m).status == Accepted && Covered(Handle(db, m).db, Handle(db, m).pushes, m)
  {
    hide SeqInv, StoreAndPush, Covered, Tidy, CleanNames;
    ValidatedDeliverable(db, m);
    OpenedKeeps(db, m);
    var v := ValidateSingle(db, m);
    TidyNames(v.db);
    DeliverableFits(db, v.db, m, v.msg);
    StoreCovers(v.db, v.msg);
    HandledIsCovered(v.db, v.msg, m);
  }

  lemma ValidatedDeliverable(db: Db, m: Msg)
    requires SingleInv(db) && Deliverable(db, m) && DrawsUnused(db, m)
    ensures var v := ValidateSingle(db, m);
      && v.Pass? && v.msg == m.(convId := v.msg.convId) && v.msg.convId != "" && v.msg.convId in v.db.convs
      && ResolveOne(v.db, m) == v.msg && !IsEarly(v.db, m)
  {
  }

  lemma HandledIsCovered(d: Db, r: Msg, m: Msg)
    requires Deliverable(d, m) && ResolveOne(d, m) == r && !IsEarly(d, m) && r == m.(convId := r.convId)
    requires var h, id := StoreAndPush(d, r, []), AssignId(r).id;
      h.db.singles == d.singles && id in h.db.messages && RowPushed(h.db, h.pushes, id, m.toUid)
    ensures Covered(StoreAndPush(d, r, []).db, StoreAndPush(d, r, []).pushes, m)
  {
    hide StoreAndPush;
    var h := StoreAndPush(d, r, []);
    assert Prepare(h.db, m) == AssignId(r);
  }

  /** So does handling it after its conversation was looked up in earlier tables. */
  lemma PreparedCovers(base: Db, db: Db, m: Msg)
    requires Inv(db) && Tidy(db) && Later(base, db) && Deliverable(db, m) && !IsEarly(base, m)
    ensures var h := Handle(db, Prepare(base, m));
      h.status == Accepted && Covered(h.db, h.pushes, m)
  {
    TidyNames(db);
    hide SeqInv, StoreAndPush, Covered, Later, Tidy, CleanNames, RowPushed;
    PreparedStays(base, db, m);
    PreparedIsValid(db, m);
    var p := Prepare(db, m);
    DeliverableFits(db, db, m, ResolveOne(db, m));
    StoreCovers(db, p);
    PreparedIsCovered(db, m, StoreAndPush(db, p, []));
  }

  lemma PreparedIsValid(db: Db, m: Msg)
    requires SingleInv(db) && Deliverable(db, m) && !IsEarly(db, m)
    ensures ValidateSingle(db, Prepare(db, m)) == Pass(db, Prepare(db, m))
    ensures AssignId(Prepare(db, m)) == Prepare(db, m) && Normalise(Prepare(db, m)) == Prepare(db, m)
    ensures ResolveOne(db, m) == m.(convId := ResolveOne(db, m).convId) && ResolveOne(db, m).convId in db.convs
  {
  }

  lemma PreparedIsCovered(db: Db, m: Msg, h: Handled)
    requires Deliverable(db, m) && !IsEarly(db, m)
    requires var id := Prepare(db, m).id;
      h.db.singles == db.singles && id in h.db.messages && RowPushed(h.db, h.pushes, id, m.toUid)
    ensures Covered(h.db, h.pushes, m)
  {
    assert Prepare(h.db, m) == Prepare(db, m);
  }

  // ---------------------------------------------------------------- delivered again

  /** A recorded frame that comes again changes no table, whatever is drawn for it this time. */
  lemma RecordedIsIdle(db: Db, m: Msg)
    requires SingleInv(db) && Recorded(db, m)
    ensures Handle(db, m).db == db
  {
    match m.kind
    case Single =>
      if m.convId == "" && m.fromUid in db.users && m.toUid in db.users {
        assert ValidateSingle(db, m) == Pass(db, ResolveOne(db, m)) by { ResolvedIsFound(db, m); }
      }
    case _ =>
  }

  lemma ResolvedIsFound(db: Db, m: Msg)
    requires SingleInv(db) && !IsEarly(db, m) && m.convId == "" && m.fromUid in db.users && m.toUid in db.users
    ensures EnsureSingle(db, m.fromUid, m.toUid, m.newConv) == Found(ResolveOne(db, m).convId)
  {
  }

  lemma RecordedPreparedIsIdle(base: Db, db: Db, m: Msg)
    requires SingleInv(db) && Later(base, db) && m.kind == Single && Recorded(base, m)
    ensures Handle(db, Prepare(base, m)).db == db
  {
    hide Later;
    RecordedStays(base, db, m);
    PreparedStays(base, db, m);
    var p := Prepare(db, m);
    assert AssignId(p) == p && p.kind == Single && p.convId == ResolveOne(db, m).convId != "";
  }

  lemma {:induction false} AllKnown(db: Db, ms: seq<Msg>)
    requires forall m :: m in ms ==> m.id in db.messages
    ensures Unknown(db, ms) == []
  {
    if ms != [] {
      AllKnown(db, ms[..|ms| - 1]);
    }
  }

  /** A batch of recorded frames changes no table either. */
  lemma {:induction false} RecordedBatchIsIdle(db: Db, rest: seq<Msg>)
    requires forall m :: m in rest ==> m.id in db.messages
    ensures FinishBatch(db, Firsts(rest)).db == db
  {
    FirstsCover(rest);
    AllKnown(db, Firsts(rest));
  }
}
