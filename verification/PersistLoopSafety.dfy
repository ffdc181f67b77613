// What holds in every state the persist worker can reach, and after every run of it.
module PersistLoopSafety {
  import opened Wrappers
  import opened Chat
  import opened Tables
  import opened PersistSpec
  import opened PersistInvariants
  import opened BatchSpec
  import opened BatchRefines
  import opened GroupSpec
  import opened GroupInvariants
  import opened ChatRuns
  import opened Delivered
  import opened PersistLoop

  // ---------------------------------------------------------------- the invariant

  /** The frames filled in so far. */
  ghost predicate Filled(base: Db, ms: seq<Msg>, msgs: seq<Msg>) {
    && |msgs| <= |ms|
    && forall i :: 0 <= i < |msgs| ==>
         && msgs[i].kind == Single && Derived(msgs[i])
         && (!IsEarly(base, ms[i]) ==> msgs[i] == Prepare(base, ms[i]))
  }

  ghost predicate PhaseInv(s: Loop) {
    match s.phase
    case Idle => s.frames == [] && s.pending == []
    case Fetched => s.pending == []
    case Opening(base, msgs) => SingleInv(base) && Later(base, s.db) && Filled(base, SinglesOf(s), msgs)
    case Storing(base, msgs) =>
      SingleInv(base) && Later(base, s.db) && Filled(base, SinglesOf(s), msgs) && |msgs| == |SinglesOf(s)|
    case Retrying(base, msgs, _) =>
      SingleInv(base) && Later(base, s.db) && Filled(base, SinglesOf(s), msgs) && |msgs| == |SinglesOf(s)|
    case Mixed(_) => true
    case Flushing(_) => true
    case Committing => s.pending == []
  }

  ghost predicate LogInv(s: Loop) {
    && s.committed + |s.frames| <= |s.log|
    && (forall i :: 0 <= i < |s.frames| ==> SameFrame(s.log[s.committed + i], s.frames[i]))
    && (forall i :: 0 <= i < |s.log| && s.log[i].Some? ==> FromServer(s.db, Normalise(s.log[i].value)))
  }

  /** The push names a conversation with a bar, as a client's frame in the log does. */
  ghost predicate Barred(log: seq<Option<Msg>>, p: Push) {
    '|' in p.convId && exists i :: 0 <= i < |log| && Names(log[i], p.convId)
  }

  predicate Names(frame: Option<Msg>, c: ConvId) {
    frame.Some? && frame.value.convId == c
  }

  ghost predicate Carries(s: Loop, d: Db, p: Push) {
    PushOfRow(d, p) || Barred(s.log, p)
  }

  ghost predicate PushInv(s: Loop) {
    forall p :: p in s.topic || p in s.pending ==> Carries(s, s.db, p)
  }

  /** The tables are in order, ids agree with rows, every push written or buffered carries a stored row
      unless a client has named its conversation with a bar, and the batch in work is the part of the
      log behind the committed offset. */
  ghost predicate LoopInv(s: Loop) {
    AllInv(s.db) && Tidy(s.db) && LogInv(s) && PushInv(s) && PhaseInv(s)
  }

  // ---------------------------------------------------------------- the frames of a batch

  lemma {:induction false} SplitMeans(frames: seq<Option<Msg>>)
    ensures forall m :: m in Singles(frames) ==>
      m.kind == Single && exists i :: 0 <= i < |frames| && frames[i].Some? && m == Normalise(frames[i].value)
    ensures forall m :: m in BatchSpec.Others(frames) ==>
      m.kind != Single && exists i :: 0 <= i < |frames| && frames[i].Some? && m == Normalise(frames[i].value)
    ensures forall i :: 0 <= i < |frames| && frames[i].Some? ==>
      var m := Normalise(frames[i].value); if m.kind == Single then m in Singles(frames) else m in BatchSpec.Others(frames)
  {
    if frames != [] {
      var k := |frames| - 1;
      SplitMeans(frames[..k]);
      forall m | m in Singles(frames)
        ensures m.kind == Single && exists i :: 0 <= i < |frames| && frames[i].Some? && m == Normalise(frames[i].value)
      {
        if m in Singles(frames[..k]) {
          var i :| 0 <= i < k && frames[..k][i].Some? && m == Normalise(frames[..k][i].value);
          assert frames[i] == frames[..k][i];
        }
      }
      forall m | m in BatchSpec.Others(frames)
        ensures m.kind != Single && exists i :: 0 <= i < |frames| && frames[i].Some? && m == Normalise(frames[i].value)
      {
        if m in BatchSpec.Others(frames[..k]) {
          var i :| 0 <= i < k && frames[..k][i].Some? && m == Normalise(frames[..k][i].value);
          assert frames[i] == frames[..k][i];
        }
      }
      forall i | 0 <= i < |frames| && frames[i].Some?
        ensures var m := Normalise(frames[i].value);
          if m.kind == Single then m in Singles(frames) else m in BatchSpec.Others(frames)
      {
        if i < k {
          assert frames[i] == frames[..k][i];
        }
      }
    }
  }

  lemma BatchFromServer(s: Loop, m: Msg)
    requires LogInv(s) && (m in SinglesOf(s) || m in OthersOf(s))
    ensures FromServer(s.db, m)
    ensures m in SinglesOf(s) ==> m.kind == Single
    ensures m in OthersOf(s) ==> m.kind != Single
    ensures m.kind != Unset
  {
    hide FromServer, Singles, BatchSpec.Others;
    SplitMeans(s.frames);
    var i :| 0 <= i < |s.frames| && s.frames[i].Some? && m == Normalise(s.frames[i].value);
    var o := s.committed + i;
    assert SameFrame(s.log[o], s.frames[i]);
    SameFromServer(s.db, Normalise(s.log[o].value), m);
  }

  lemma SameFromServer(db: Db, a: Msg, b: Msg)
    requires FromServer(db, a) && b == a.(newConv := b.newConv, draw := b.draw)
    ensures FromServer(db, b)
  {
  }

  lemma BatchIsSound(s: Loop, m: Msg)
    requires LogInv(s) && (m in SinglesOf(s) || m in OthersOf(s)) && Fresh(s.db, m)
    ensures Sound(s.db, Normalise(m)) && Normalise(m) == m
  {
    BatchFromServer(s, m);
  }

  // ---------------------------------------------------------------- later tables

  lemma LaterKeepsLog(s: Loop, d: Db)
    requires LogInv(s) && Later(s.db, d)
    ensures LogInv(s.(db := d))
  {
  }

  lemma LaterKeepsPushes(s: Loop, d: Db, more: seq<Push>)
    requires PushInv(s) && Later(s.db, d) && forall p :: p in more ==> Carries(s, d, p)
    ensures PushInv(s.(db := d, pending := s.pending + more))
  {
  }

  lemma LaterKeepsPhase(s: Loop, d: Db)
    requires PhaseInv(s) && Later(s.db, d)
    ensures PhaseInv(s.(db := d))
  {
    hide Later, SingleInv, Filled;
    match s.phase
    case Opening(base, _) => LaterTransitive(base, s.db, d);
    case Storing(base, _) => LaterTransitive(base, s.db, d);
    case Retrying(base, _, _) => LaterTransitive(base, s.db, d);
    case _ =>
  }

  // ---------------------------------------------------------------- other processes

  lemma EventIsTidy(db: Db, d: Db, g: ConvId, u: Uid, note: Content, draw: nat)
    requires Tidy(db) && d.messages == db.messages && CleanNames(d) && '|' !in g && '|' !in u
    requires InsertEvent(d, g, u, note, draw).Ok?
    ensures Tidy(InsertEvent(d, g, u, note, draw).db)
  {
    hide Numbered;
  }

  lemma CreatedNames(db: Db, g: ConvId, owner: Uid, name: string, members: seq<Uid>)
    requires CleanNames(db) && '|' !in g
    ensures CleanNames(CreatedTables(db, g, owner, name, members))
  {
  }

  lemma ChangedNames(db: Db, g: ConvId, change: Change)
    requires CleanNames(db) && g in db.groups && ApplyChange(db, g, change).Done?
    ensures CleanNames(ApplyChange(db, g, change).db)
  {
    hide RejoinAll, Newcomers, MarkLeft, ActiveUids;
  }

  lemma LeftNames(db: Db, g: ConvId, u: Uid)
    requires CleanNames(db) && g in db.groups
    ensures CleanNames(Left(db, g, u))
  {
    hide MarkLeft, ActiveUids;
  }

  lemma SidelineNames(db: Db, step: Step)
    requires CleanNames(db) && Lawful(db, step) && (step.OpenSingle? || step.Presence? || step.SignUp?)
    ensures CleanNames(Perform(db, step))
  {
    hide SingleKey;
  }

  lemma CreateIsTidy(db: Db, g: ConvId, owner: Uid, name: string, members: seq<Uid>, note: Content, draw: nat)
    requires Tidy(db) && '|' !in g && '|' !in owner && CreateGroup(db, g, owner, name, members, note, draw).Ok?
    ensures Tidy(CreateGroup(db, g, owner, name, members, note, draw).db)
  {
    TidyNames(db);
    hide Tidy, CleanNames, InsertEvent, OwnerFirst, NewRoster, HasDuplicates;
    CreatedNames(db, g, owner, name, members);
    EventIsTidy(db, CreatedTables(db, g, owner, name, members), g, owner, note, draw);
  }

  lemma GovernIsTidy(db: Db, g: ConvId, operator: Uid, change: Change, note: Content, draw: nat)
    requires Tidy(db) && '|' !in g && '|' !in operator && Manage(db, g, operator, change, note, draw).Ok?
    ensures Tidy(Manage(db, g, operator, change, note, draw).db)
  {
    TidyNames(db);
    hide Tidy, CleanNames, InsertEvent, ApplyChange, Precheck;
    ChangeKeepsRows(db, g, change);
    ChangedNames(db, g, change);
    EventIsTidy(db, ApplyChange(db, g, change).db, g, operator, note, draw);
  }

  lemma LeaveIsTidy(db: Db, g: ConvId, u: Uid, note: Content, draw: nat)
    requires Tidy(db) && '|' !in g && '|' !in u && Quit(db, g, u, note, draw).Ok?
    ensures Tidy(Quit(db, g, u, note, draw).db)
  {
    TidyNames(db);
    hide Tidy, CleanNames, InsertEvent, Quit;
    QuitIsLeft(db, g, u, note, draw);
    LeftNames(db, g, u);
    EventIsTidy(db, Left(db, g, u), g, u, note, draw);
  }

  lemma OtherStepIsTidy(db: Db, step: Step)
    requires AllInv(db) && Tidy(db) && SoundStep(db, step)
    ensures Tidy(Perform(db, step))
  {
    hide SeqInv, SingleInv, GroupInv, Tidy, Handle, CreateGroup, Manage, Quit, Sound, DrawsUnused, CleanNames,
         EnsureSingle;
    match step
    case Frame(m) =>
      HandleIsSound(db, m);
    case Create(g, owner, name, members, note, draw) =>
      if CreateGroup(db, g, owner, name, members, note, draw).Ok? {
        CreateIsTidy(db, g, owner, name, members, note, draw);
      }
    case Govern(g, operator, change, note, draw) =>
      if Manage(db, g, operator, change, note, draw).Ok? {
        GovernIsTidy(db, g, operator, change, note, draw);
      }
    case Leave(g, u, note, draw) =>
      if Quit(db, g, u, note, draw).Ok? {
        LeaveIsTidy(db, g, u, note, draw);
      }
    case _ =>
      SidelineIsTidy(db, step);
  }

  lemma SidelineIsTidy(db: Db, step: Step)
    requires Tidy(db) && Lawful(db, step) && (step.OpenSingle? || step.Presence? || step.SignUp?)
    ensures Tidy(Perform(db, step))
  {
    TidyNames(db);
    SidelineNames(db, step);
    hide Tidy, CleanNames, SingleKey;
    SameRowsTidy(db, Perform(db, step));
  }

  lemma ChangeKeepsRows(db: Db, g: ConvId, change: Change)
    requires g in db.groups && ApplyChange(db, g, change).Done?
    ensures ApplyChange(db, g, change).db.messages == db.messages
  {
  }

  lemma ElsewhereKeepsInv(s: Loop, step: Step)
    requires LoopInv(s) && Enabled(s, Elsewhere(step))
    ensures LoopInv(Next(s, Elsewhere(step))) && Later(s.db, Next(s, Elsewhere(step)).db)
  {
    hide AllInv, Tidy, LogInv, PushInv, PhaseInv, Lawful, Perform, Later;
    var d := Perform(s.db, step);
    assert Lawful(s.db, step) && !step.Batch?;
    StepKeepsInv(s.db, step);
    OtherStepIsTidy(s.db, step);
    StepIsLater(s.db, step);
    LaterKeepsAll(s, d, []);
    assert s.pending + [] == s.pending;
  }

  lemma LaterKeepsAll(s: Loop, d: Db, more: seq<Push>)
    requires LogInv(s) && PushInv(s) && PhaseInv(s) && Later(s.db, d) && forall p :: p in more ==> Carries(s, d, p)
    ensures LogInv(s.(db := d)) && PhaseInv(s.(db := d)) && PushInv(s.(db := d, pending := s.pending + more))
  {
    hide LogInv, PushInv, PhaseInv, Later;
    LaterKeepsLog(s, d);
    LaterKeepsPushes(s, d, more);
    LaterKeepsPhase(s, d);
  }

  lemma BulkElsewhereKeepsInv(s: Loop, rest: seq<Msg>)
    requires LoopInv(s) && Enabled(s, BulkElsewhere(rest))
    ensures LoopInv(Next(s, BulkElsewhere(rest))) && Later(s.db, Next(s, BulkElsewhere(rest)).db)
  {
    hide AllInv, Tidy, LogInv, PushInv, PhaseInv, FinishBatch, Later, BatchSound;
    FinishIsTidy(s.db, rest);
    LaterKeepsAll(s, FinishBatch(s.db, Firsts(rest)).db, []);
    assert s.pending + [] == s.pending;
  }

  // ---------------------------------------------------------------- frames one by one

  /** A frame handled in any phase. */
  lemma FrameKeepsInv(s: Loop, m: Msg)
    requires LoopInv(s) && Sound(s.db, Normalise(m)) && DrawsUnused(s.db, m)
    ensures var h := Handle(s.db, m); var t := s.(db := h.db, pending := s.pending + h.pushes);
      && AllInv(t.db) && Tidy(t.db) && LogInv(t) && PushInv(t)
      && Later(s.db, t.db) && PhaseInv(s.(db := h.db))
      && (m.kind == Single ==> Derived(h.msg) && h.msg.kind == Single)
  {
    hide SeqInv, SingleInv, GroupInv, Tidy, LogInv, PushInv, PhaseInv, Handle, Sound, DrawsUnused, Later;
    HandleKeepsGroups(s.db, m);
    HandleIsSound(s.db, m);
    HandleGrows(s.db, m);
    GrowsIsLater(s.db, Handle(s.db, m).db);
    LaterKeepsAll(s, Handle(s.db, m).db, Handle(s.db, m).pushes);
    PhaseFreeLog(s, Handle(s.db, m));
    HandleKeepsKind(s.db, m);
  }

  lemma HandleKeepsKind(db: Db, m: Msg)
    ensures m.kind == Single ==> Handle(db, m).msg.kind == Single
  {
  }

  lemma PhaseFreeLog(s: Loop, h: Handled)
    requires LogInv(s.(db := h.db))
    ensures LogInv(s.(db := h.db, pending := s.pending + h.pushes))
  {
  }

  lemma PreparedIsNamed(base: Db, db: Db, m: Msg)
    requires SingleInv(base) && !IsEarly(base, m) && m.kind == Single && FromServer(db, m)
    ensures Derived(Prepare(base, m)) && Prepare(base, m).kind == Single && Prepare(base, m).id != NoId
  {
  }

  lemma FilledSnoc(base: Db, ms: seq<Msg>, msgs: seq<Msg>, m: Msg)
    requires Filled(base, ms, msgs) && |msgs| < |ms| && m.kind == Single && Derived(m)
    requires !IsEarly(base, ms[|msgs|]) ==> m == Prepare(base, ms[|msgs|])
    ensures Filled(base, ms, msgs + [m])
  {
  }

  lemma OpenKeepsLoopInv(s: Loop)
    requires LoopInv(s) && Enabled(s, Open)
    ensures LoopInv(Next(s, Open)) && Later(s.db, Next(s, Open).db)
  {
    hide AllInv, Tidy, LogInv, PushInv, SingleInv, Later, Filled, Fresh, Derived, IsEarly, Prepare, Handle,
         FromServer, Sound, DrawsUnused, Singles;
    var Opening(base, msgs) := s.phase;
    LaterReflexive(s.db);
    SamePushes(s);
    if |msgs| >= |SinglesOf(s)| {
      FilledLength(base, SinglesOf(s), msgs);
      assert Next(s, Open) == s.(phase := Storing(base, msgs));
      PhaseOnly(s, Storing(base, msgs));
    } else {
      var m := SinglesOf(s)[|msgs|];
      BatchFromServer(s, m);
      if IsEarly(base, m) {
        BatchIsSound(s, m);
        FreshIsUnused(s.db, m);
        FrameKeepsInv(s, m);
        var h := Handle(s.db, m);
        FilledSnoc(base, SinglesOf(s), msgs, h.msg);
        FrameDone(s, h, Opening(base, msgs + [h.msg]));
      } else {
        PreparedIsNamed(base, s.db, m);
        FilledSnoc(base, SinglesOf(s), msgs, Prepare(base, m));
        PhaseOnly(s, Opening(base, msgs + [Prepare(base, m)]));
      }
    }
  }

  lemma FilledLength(base: Db, ms: seq<Msg>, msgs: seq<Msg>)
    requires Filled(base, ms, msgs)
    ensures |msgs| <= |ms|
  {
  }

  lemma FreshIsUnused(db: Db, m: Msg)
    requires Fresh(db, m)
    ensures DrawsUnused(db, m)
  {
  }

  lemma SamePushes(s: Loop)
    requires PushInv(s)
    ensures PushInv(s.(pending := s.pending + []))
  {
  }

  lemma PhaseOnly(s: Loop, phase: Phase)
    requires LogInv(s) && PushInv(s)
    ensures LogInv(s.(phase := phase)) && PushInv(s.(phase := phase))
  {
  }

  lemma FrameDone(s: Loop, h: Handled, next: Phase)
    requires var t := s.(db := h.db, pending := s.pending + h.pushes);
      AllInv(t.db) && Tidy(t.db) && LogInv(t) && PushInv(t)
    requires PhaseInv(s.(db := h.db, phase := next)) && (next.Opening? || next.Retrying? || next.Mixed?)
    ensures LoopInv(AfterFrame(s, h, next))
  {
    hide AllInv, Tidy, LogInv, PushInv, SingleInv, Later, Filled;
    PhaseOnly(s.(db := h.db, pending := s.pending + h.pushes), AfterFrame(s, h, next).phase);
  }

  lemma StoreKeepsLoopInv(s: Loop)
    requires LoopInv(s) && Enabled(s, Store)
    ensures LoopInv(Next(s, Store)) && Later(s.db, Next(s, Store).db)
    ensures BatchSound(s.db, Rest(s.phase.base, SinglesOf(s)))
  {
    hide AllInv, Tidy, LogInv, PushInv, SingleInv, Later, Filled, Singles, FinishBatch, Rest, FromServer, Derived,
         IsEarly, Prepare, IdFits, Carries, BarredIn, PushOfRow;
    var Storing(base, msgs) := s.phase;
    var rest := Rest(base, SinglesOf(s));
    RestComesFrom(base, SinglesOf(s));
    forall p | p in rest
      ensures p.id != NoId && Derived(p)
    {
      var m :| m in SinglesOf(s) && !IsEarly(base, m) && p == Prepare(base, m);
      BatchFromServer(s, m);
      PreparedIsNamed(base, s.db, m);
    }
    FinishIsTidy(s.db, rest);
    FinishIsSound(s.db, rest);
    var f := FinishBatch(s.db, Firsts(rest));
    forall p | p in f.pushes
      ensures Carries(s, f.db, p)
    {
      if !PushOfRow(f.db, p) {
        BarredIsInLog(s, base, p);
      }
      RowIsCarried(s, f.db, p);
    }
    LaterKeepsAll(s, f.db, f.pushes);
    PendingOnly(s.(db := f.db), s.pending + f.pushes);
    PhaseOnly(s.(db := f.db, pending := s.pending + f.pushes), Next(s, Store).phase);
  }

  lemma RowIsCarried(s: Loop, d: Db, p: Push)
    ensures PushOfRow(d, p) || Barred(s.log, p) ==> Carries(s, d, p)
  {
  }

  /** A push of a batch with a bar comes from a frame of the log that names the same conversation. */
  lemma {:induction false} BarredIsInLog(s: Loop, base: Db, p: Push)
    requires LogInv(s) && SingleInv(base) && BarredIn(Rest(base, SinglesOf(s)), p)
    ensures Barred(s.log, p)
  {
    hide SingleInv, FromServer, Singles, Rest, Prepare, IsEarly, Normalise, LogInv, Names;
    RestComesFrom(base, SinglesOf(s));
    var q :| q in Rest(base, SinglesOf(s)) && q.convId == p.convId;
    var m :| m in SinglesOf(s) && !IsEarly(base, m) && q == Prepare(base, m);
    BarIsClients(base, m);
    SplitMeans(s.frames);
    var i :| 0 <= i < |s.frames| && s.frames[i].Some? && m == Normalise(s.frames[i].value);
    NormaliseKeepsConv(s.frames[i].value);
    FetchedIsNamed(s, i, p.convId);
  }

  lemma FetchedIsNamed(s: Loop, i: nat, c: ConvId)
    requires LogInv(s) && i < |s.frames| && s.frames[i].Some? && s.frames[i].value.convId == c
    ensures s.committed + i < |s.log| && Names(s.log[s.committed + i], c)
  {
    hide FromServer, Normalise;
    assert SameFrame(s.log[s.committed + i], s.frames[i]);
  }

  lemma BarIsClients(base: Db, m: Msg)
    requires SingleInv(base) && !IsEarly(base, m)
    ensures '|' in Prepare(base, m).convId ==> Prepare(base, m).convId == m.convId
  {
  }

  lemma NormaliseKeepsConv(m: Msg)
    ensures Normalise(m).convId == m.convId
  {
  }

  lemma PendingOnly(s: Loop, pending: seq<Push>)
    requires LogInv(s)
    ensures LogInv(s.(pending := pending))
  {
  }

  lemma RetryKeepsLoopInv(s: Loop)
    requires LoopInv(s) && Enabled(s, Retry)
    ensures LoopInv(Next(s, Retry)) && Later(s.db, Next(s, Retry).db)
  {
    hide AllInv, Tidy, LogInv, PushInv, SingleInv, Later, Fresh, Derived, IsEarly, Prepare, Handle, DrawsUnused,
         Singles;
    var Retrying(base, msgs, k) := s.phase;
    LaterReflexive(s.db);
    if k >= |msgs| {
      PhaseOnly(s, Mixed(0));
    } else {
      FreshIsUnused(s.db, msgs[k]);
      FrameKeepsInv(s, msgs[k]);
      FrameDone(s, Handle(s.db, msgs[k]), Retrying(base, msgs, k + 1));
    }
  }

  lemma OtherKeepsLoopInv(s: Loop)
    requires LoopInv(s) && Enabled(s, HandleOther)
    ensures LoopInv(Next(s, HandleOther)) && Later(s.db, Next(s, HandleOther).db)
  {
    hide AllInv, Tidy, LogInv, PushInv, Later, Fresh, Sound, Handle, DrawsUnused, BatchSpec.Others;
    var k := s.phase.k;
    LaterReflexive(s.db);
    if k >= |OthersOf(s)| {
      PhaseOnly(s, Flushing(false));
    } else {
      BatchIsSound(s, OthersOf(s)[k]);
      FreshIsUnused(s.db, OthersOf(s)[k]);
      FrameKeepsInv(s, OthersOf(s)[k]);
      FrameDone(s, Handle(s.db, OthersOf(s)[k]), Mixed(k + 1));
    }
  }

  lemma MoreLog(s: Loop, frame: Option<Msg>, p: Push)
    requires Carries(s, s.db, p)
    ensures Carries(s.(log := s.log + [frame]), s.db, p)
  {
    if Barred(s.log, p) {
      var i :| 0 <= i < |s.log| && Names(s.log[i], p.convId);
      assert Names((s.log + [frame])[i], p.convId);
    }
  }

  lemma ProduceKeepsPushes(s: Loop, frame: Option<Msg>)
    requires PushInv(s)
    ensures PushInv(s.(log := s.log + [frame]))
  {
    hide Carries;
    forall p | p in s.topic || p in s.pending {
      MoreLog(s, frame, p);
    }
  }

  /** Moves that leave the tables alone. */
  lemma ProduceKeepsInv(s: Loop, move: Move)
    requires LoopInv(s) && Enabled(s, move) && move.Produce?
    ensures LoopInv(Next(s, move)) && Later(s.db, Next(s, move).db)
  {
    hide AllInv, Tidy, FromServer, PushOfRow, Barred;
    ProduceKeepsPushes(s, move.frame);
    LaterReflexive(s.db);
    hide Later;
    assert AllInv(s.db) ==> SingleInv(s.db) by { AllIsSingle(s.db); }
    hide SingleInv;
  }

  lemma QuietMoveKeepsInv(s: Loop, move: Move)
    requires LoopInv(s) && Enabled(s, move)
    requires move.Fetch? || move.Resolve? || move.Flush? || move.Commit? || move.Fail? || move.Crash?
    ensures LoopInv(Next(s, move)) && Later(s.db, Next(s, move).db)
  {
    hide AllInv, Tidy, FromServer, PushOfRow, Barred;
    LaterReflexive(s.db);
    hide Later;
    assert AllInv(s.db) ==> SingleInv(s.db) by { AllIsSingle(s.db); }
    hide SingleInv;
  }

  lemma AllIsSingle(db: Db)
    requires AllInv(db)
    ensures SingleInv(db)
  {
  }

  lemma LogGrows(s: Loop, move: Move)
    ensures s.log <= Next(s, move).log && (move != Commit ==> Next(s, move).committed == s.committed)
  {
    hide Handle, FinishBatch, Rest, Singles, BatchSpec.Others, ChatRuns.Perform, IsEarly, Prepare;
  }

  /** Every move of the worker and of its surroundings keeps the invariant. */
  lemma MoveKeepsInv(s: Loop, move: Move)
    requires LoopInv(s) && Enabled(s, move)
    ensures LoopInv(Next(s, move)) && Later(s.db, Next(s, move).db)
  {
    hide LoopInv, Enabled, Next, Later;
    match move
    case Elsewhere(step) => ElsewhereKeepsInv(s, step);
    case BulkElsewhere(rest) => BulkElsewhereKeepsInv(s, rest);
    case Open => OpenKeepsLoopInv(s);
    case Store => StoreKeepsLoopInv(s);
    case Retry => RetryKeepsLoopInv(s);
    case HandleOther => OtherKeepsLoopInv(s);
    case Produce(_) => ProduceKeepsInv(s, move);
    case _ => QuietMoveKeepsInv(s, move);
  }

  /** In every run over any client's frames, whatever dies when: the numbers of every conversation stay
      dense, and each push written or buffered carries the id, the conversation, the number, the sender
      and the content of a stored row, unless it names a conversation with a bar as a frame of the log
      does. */
  lemma {:induction false} RunKeepsLoopInv(s: Loop, moves: seq<Move>)
    requires LoopInv(s) && Possible(s, moves)
    ensures LoopInv(RunLoop(s, moves)) && Later(s.db, RunLoop(s, moves).db)
  {
    hide LoopInv, Enabled, Next, Later;
    if moves == [] {
      LaterReflexive(s.db);
    } else {
      var k := |moves| - 1;
      RunKeepsLoopInv(s, moves[..k]);
      MoveKeepsInv(RunLoop(s, moves[..k]), moves[k]);
      LaterTransitive(s.db, RunLoop(s, moves[..k]).db, RunLoop(s, moves).db);
    }
  }
}
