// At-least-once delivery and redelivery over every run of the persist worker, with crashes anywhere.
module PersistLoopDelivery {
  import opened Wrappers
  import opened Chat
  import opened Tables
  import opened PersistSpec
  import opened PersistInvariants
  import opened BatchSpec
  import opened BatchBulk
  import opened BatchRefines
  import opened GroupInvariants
  import opened Delivered
  import opened PersistLoop
  import opened PersistLoopSafety

  // ---------------------------------------------------------------- what is owed

  /** The frame gets the id of m, and is for somebody else or names a conversation with a bar: in one
      batch with m and in front of it, it takes the push of m. */
  predicate Rivals(end: Db, x: Msg, m: Msg) {
    && x.kind == Single && !IsEarly(end, x) && Prepare(end, x).id == Prepare(end, m).id
    && (x.toUid != m.toUid || '|' in x.convId)
  }

  /** No frame of the log is a rival of m. */
  ghost predicate Unrivalled(end: Db, log: seq<Option<Msg>>, m: Msg) {
    forall i :: 0 <= i < |log| && log[i].Some? ==> !Rivals(end, Normalise(log[i].value), m)
  }

  /** What a run is about: the tables at its beginning, and the tables and the log at its end. */
  datatype Goal = Goal(at: Db, end: Db, log: seq<Option<Msg>>)

  ghost predicate Owed(g: Goal, m: Msg) {
    Deliverable(g.at, m) && Unrivalled(g.end, g.log, m)
  }

  /** The state lies on the way. */
  ghost predicate Leads(s: Loop, g: Goal) {
    s.log <= g.log && Later(s.db, g.end)
  }

  /** A frame that is owed has its row, and its receiver the push. */
  ghost predicate CoveredIf(g: Goal, db: Db, pushes: seq<Push>, m: Msg) {
    Owed(g, m) ==> Covered(db, pushes, m)
  }

  ghost predicate AllCovered(g: Goal, db: Db, pushes: seq<Push>, ms: seq<Msg>) {
    forall m :: m in ms ==> CoveredIf(g, db, pushes, m)
  }

  ghost predicate EarlyCovered(g: Goal, base: Db, db: Db, pushes: seq<Push>, ms: seq<Msg>) {
    forall m :: m in ms && IsEarly(base, m) ==> CoveredIf(g, db, pushes, m)
  }

  ghost predicate LogCovered(g: Goal, start: nat, s: Loop) {
    && s.committed <= |s.log|
    && forall o :: start <= o < s.committed && s.log[o].Some? ==>
         CoveredIf(g, s.db, s.topic, Normalise(s.log[o].value))
  }

  /** How far the batch in work has got. */
  ghost predicate InFlight(g: Goal, s: Loop) {
    var ms, all := SinglesOf(s), s.topic + s.pending;
    match s.phase
    case Idle => true
    case Fetched => true
    case Opening(base, msgs) => Later(g.at, base) && |msgs| <= |ms| && EarlyCovered(g, base, s.db, all, ms[..|msgs|])
    case Storing(base, msgs) => Later(g.at, base) && EarlyCovered(g, base, s.db, all, ms)
    case Retrying(base, msgs, k) =>
      && Later(g.at, base) && |msgs| == |ms| && EarlyCovered(g, base, s.db, all, ms)
      && k <= |ms| && AllCovered(g, s.db, all, ms[..k])
    case Mixed(_) => AllCovered(g, s.db, all, ms)
    case Flushing(failed) => failed || AllCovered(g, s.db, all, ms)
    case Committing => AllCovered(g, s.db, s.topic, ms)
  }

  ghost predicate Tracks(g: Goal, start: nat, s: Loop) {
    Later(g.at, s.db) && LogCovered(g, start, s) && InFlight(g, s)
  }

  // ---------------------------------------------------------------- more of everything

  lemma CoveredIfStays(g: Goal, a: Db, b: Db, ps: seq<Push>, qs: seq<Push>, m: Msg)
    requires Later(a, b) && ps <= qs && CoveredIf(g, a, ps, m)
    ensures CoveredIf(g, b, qs, m)
  {
    if Owed(g, m) {
      CoveredStays(a, b, ps, qs, m);
    }
  }

  lemma AllCoveredStays(g: Goal, a: Db, b: Db, ps: seq<Push>, qs: seq<Push>, ms: seq<Msg>)
    requires Later(a, b) && ps <= qs
    ensures AllCovered(g, a, ps, ms) ==> AllCovered(g, b, qs, ms)
    ensures forall base :: EarlyCovered(g, base, a, ps, ms) ==> EarlyCovered(g, base, b, qs, ms)
  {
    hide CoveredIf, Later;
    forall m | m in ms && CoveredIf(g, a, ps, m)
      ensures CoveredIf(g, b, qs, m)
    {
      CoveredIfStays(g, a, b, ps, qs, m);
    }
  }

  lemma LogCoveredStays(g: Goal, start: nat, s: Loop, t: Loop)
    requires LogCovered(g, start, s) && Later(s.db, t.db)
    requires s.log <= t.log && s.topic <= t.topic && s.committed == t.committed
    ensures LogCovered(g, start, t)
  {
    hide CoveredIf, Later;
    forall o | start <= o < t.committed && t.log[o].Some?
      ensures CoveredIf(g, t.db, t.topic, Normalise(t.log[o].value))
    {
      assert s.log[o] == t.log[o];
      CoveredIfStays(g, s.db, t.db, s.topic, t.topic, Normalise(s.log[o].value));
    }
  }

  /** Later tables and more pushes leave everything covered that was. */
  lemma InFlightStays(g: Goal, s: Loop, d: Db, more: seq<Push>)
    requires InFlight(g, s) && Later(s.db, d)
    ensures InFlight(g, s.(db := d, pending := s.pending + more))
  {
    hide AllCovered, EarlyCovered, Later;
    var all, t := s.topic + s.pending, s.(db := d, pending := s.pending + more);
    assert t.topic + t.pending == all + more;
    match s.phase
    case Opening(_, msgs) => AllCoveredStays(g, s.db, d, all, all + more, SinglesOf(s)[..|msgs|]);
    case Storing(_, _) => AllCoveredStays(g, s.db, d, all, all + more, SinglesOf(s));
    case Retrying(_, _, k) =>
      AllCoveredStays(g, s.db, d, all, all + more, SinglesOf(s));
      AllCoveredStays(g, s.db, d, all, all + more, SinglesOf(s)[..k]);
    case Mixed(_) => AllCoveredStays(g, s.db, d, all, all + more, SinglesOf(s));
    case Flushing(_) => AllCoveredStays(g, s.db, d, all, all + more, SinglesOf(s));
    case Committing => AllCoveredStays(g, s.db, d, s.topic, s.topic, SinglesOf(s));
    case _ =>
  }

  // ---------------------------------------------------------------- the worker's transactions

  lemma TablesMove(g: Goal, start: nat, s: Loop, d: Db, more: seq<Push>)
    requires Tracks(g, start, s) && Later(s.db, d)
    ensures Tracks(g, start, s.(db := d, pending := s.pending + more))
  {
    hide Later, InFlight, LogCovered;
    LaterTransitive(g.at, s.db, d);
    InFlightStays(g, s, d, more);
    LogCoveredStays(g, start, s, s.(db := d, pending := s.pending + more));
  }

  lemma NowCovered(g: Goal, d: Db, before: seq<Push>, more: seq<Push>, m: Msg)
    requires Covered(d, more, m)
    ensures CoveredIf(g, d, before + more, m)
  {
    LaterReflexive(d);
    CoveredStays(d, d, more, before + more, m);
  }

  lemma OpenTracks(g: Goal, start: nat, s: Loop)
    requires LoopInv(s) && Enabled(s, Open) && Tracks(g, start, s)
    ensures Tracks(g, start, Next(s, Open))
  {
    hide AllInv, Tidy, LogInv, PushInv, Later, Fresh, Handle, Prepare, IsEarly, Singles, CoveredIf, LogCovered,
         SingleInv,
         Filled;
    var Opening(base, msgs) := s.phase;
    var ms, t := SinglesOf(s), Next(s, Open);
    PhaseFree(g, start, s, Storing(base, msgs));
    if |msgs| >= |ms| {
      assert ms[..|msgs|] == ms;
    } else {
      var m := ms[|msgs|];
      assert ms[..|msgs| + 1] == ms[..|msgs|] + [m];
      if IsEarly(base, m) {
        var h := Handle(s.db, m);
        MoveKeepsInv(s, Open);
        TablesMove(g, start, s, h.db, h.pushes);
        if Owed(g, m) {
          DeliverableStays(g.at, s.db, m);
          FreshIsUnused(s.db, m);
          AllIsInv(s.db);
          HandleCovers(s.db, m);
          NowCovered(g, h.db, s.topic + s.pending, h.pushes, m);
          assert s.topic + s.pending + h.pushes == s.topic + (s.pending + h.pushes);
        } else {
          NotOwed(g, h.db, s.topic + (s.pending + h.pushes), m);
        }
        PhaseFree(g, start, s.(db := h.db, pending := s.pending + h.pushes), t.phase);
      } else {
        PhaseFree(g, start, s, t.phase);
      }
    }
  }

  lemma AllIsInv(db: Db)
    requires AllInv(db)
    ensures Inv(db)
  {
  }

  lemma NotOwed(g: Goal, d: Db, pushes: seq<Push>, m: Msg)
    requires !Owed(g, m)
    ensures CoveredIf(g, d, pushes, m)
  {
  }

  lemma PhaseFree(g: Goal, start: nat, s: Loop, phase: Phase)
    requires LogCovered(g, start, s)
    ensures LogCovered(g, start, s.(phase := phase))
  {
  }

  lemma StoreTracks(g: Goal, start: nat, s: Loop)
    requires LoopInv(s) && Enabled(s, Store) && Tracks(g, start, s) && Leads(s, g)
    ensures Tracks(g, start, Next(s, Store))
  {
    hide AllInv, Tidy, LogInv, PushInv, Later, FinishBatch, Rest, Prepare, IsEarly, Singles, CoveredIf, LogCovered,
         SingleInv, Filled, IdFits, BatchSound;
    var Storing(base, msgs) := s.phase;
    var ms, t, rest := SinglesOf(s), Next(s, Store), Rest(base, SinglesOf(s));
    StoreKeepsLoopInv(s);
    var f := FinishBatch(s.db, Firsts(rest));
    TablesMove(g, start, s, f.db, f.pushes);
    PhaseFree(g, start, s.(db := f.db, pending := s.pending + f.pushes), t.phase);
    if f.status == BatchStatus.Done {
      forall m | m in ms
        ensures CoveredIf(g, t.db, t.topic + t.pending, m)
      {
        if !IsEarly(base, m) {
          StoredIsCovered(g, s, m);
        }
      }
    }
    FilledAll(s);
  }

  lemma FilledAll(s: Loop)
    requires PhaseInv(s) && s.phase.Storing?
    ensures |s.phase.msgs| == |SinglesOf(s)|
  {
  }

  /** The frame of the batch whose push a frame gets. */
  lemma KeptFor(base: Db, ms: seq<Msg>, m: Msg) returns (x: Msg)
    requires m in ms && !IsEarly(base, m)
    ensures x in ms && !IsEarly(base, x) && Prepare(base, x).id == Prepare(base, m).id
    ensures Prepare(base, x) in Firsts(Rest(base, ms))
  {
    hide Prepare, IsEarly, Rest, Firsts;
    var rest := Rest(base, ms);
    RestHasAll(base, ms);
    FirstsCover(rest);
    assert Prepare(base, m).id in Ids(rest);
    var q :| q in Firsts(rest) && q.id == Prepare(base, m).id;
    RestComesFrom(base, ms);
    x :| x in ms && !IsEarly(base, x) && q == Prepare(base, x);
  }

  lemma NamedForGood(base: Db, end: Db, x: Msg, a: Msg, m: Msg)
    requires Later(base, end) && !IsEarly(base, x) && !IsEarly(base, m) && x.id == NoId && m.id == NoId && m.cliId != ""
    requires Prepare(base, x).id == Prepare(base, m).id && x == a.(newConv := x.newConv, draw := x.draw)
    ensures !IsEarly(end, a) && Prepare(end, a).id == Prepare(end, m).id
  {
    PreparedStays(base, end, x);
    PreparedStays(base, end, m);
  }

  /** A frame of the batch with the id of an owed one is no rival. */
  lemma NoRival(g: Goal, s: Loop, base: Db, x: Msg, m: Msg)
    requires LogInv(s) && Leads(s, g) && Later(base, s.db) && Owed(g, m)
    requires x in SinglesOf(s) && !IsEarly(base, x) && !IsEarly(base, m) && Prepare(base, x).id == Prepare(base, m).id
    ensures x.toUid == m.toUid && '|' !in x.convId
  {
    BatchFromServer(s, x);
    hide Later, Prepare, IsEarly, Singles, FromServer, Normalise;
    SplitMeans(s.frames);
    var i :| 0 <= i < |s.frames| && s.frames[i].Some? && x == Normalise(s.frames[i].value);
    assert SameFrame(s.log[s.committed + i], s.frames[i]);
    assert g.log[s.committed + i] == s.log[s.committed + i];
    var a := Normalise(s.log[s.committed + i].value);
    NormaliseSame(s.log[s.committed + i].value, s.frames[i].value);
    LaterTransitive(base, s.db, g.end);
    ServerId(s.db, x);
    NamedForGood(base, g.end, x, a, m);
    assert !Rivals(g.end, a, m);
  }

  lemma NormaliseSame(a: Msg, b: Msg)
    requires b == a.(newConv := b.newConv, draw := b.draw)
    ensures var x, y := Normalise(a), Normalise(b); y == x.(newConv := y.newConv, draw := y.draw)
  {
  }

  lemma ServerId(db: Db, x: Msg)
    requires FromServer(db, x) && x.kind == Single
    ensures x.id == NoId
  {
  }

  lemma CleanConvIsKept(base: Db, x: Msg)
    requires SingleInv(base) && '|' !in x.convId
    ensures '|' !in Prepare(base, x).convId && Prepare(base, x).toUid == x.toUid
  {
  }

  /** The kept frame gets a push, and with a clean conversation the push carries its row. */
  lemma {:induction false} KeptIsPushed(db: Db, rest: seq<Msg>, q: Msg)
    requires AllInv(db) && Tidy(db) && BatchSound(db, rest) && q in Firsts(rest) && '|' !in q.convId
    requires FinishBatch(db, Firsts(rest)).status == BatchStatus.Done
    ensures var f := FinishBatch(db, Firsts(rest)); RowPushed(f.db, f.pushes, q.id, q.toUid)
  {
    hide AllInv, Tidy, BatchSound, FinishBatch, Firsts, PushOfRow;
    KeptAreAddressed(db, Firsts(rest));
    FinishIsSound(db, rest);
    var f := FinishBatch(db, Firsts(rest));
    assert PushedTo(f.pushes, q);
    var p :| p in f.pushes && IsFor(p, q);
    assert PushOfRow(f.db, p);
  }

  lemma StoredIsCovered(g: Goal, s: Loop, m: Msg)
    requires LoopInv(s) && s.phase.Storing? && m in SinglesOf(s) && !IsEarly(s.phase.base, m) && Leads(s, g)
    requires BatchSound(s.db, Rest(s.phase.base, SinglesOf(s)))
    requires FinishBatch(s.db, Firsts(Rest(s.phase.base, SinglesOf(s)))).status == BatchStatus.Done
    ensures var f := FinishBatch(s.db, Firsts(Rest(s.phase.base, SinglesOf(s))));
      CoveredIf(g, f.db, s.topic + (s.pending + f.pushes), m)
  {
    hide AllInv, Tidy, LogInv, PushInv, Later, FinishBatch, Rest, Prepare, IsEarly, Singles,
         SingleInv, Filled, BatchSound, Covered, Firsts, Unrivalled, Leads, RowPushed;
    var base, rest := s.phase.base, Rest(s.phase.base, SinglesOf(s));
    var f := FinishBatch(s.db, Firsts(rest));
    FinishIsTidy(s.db, rest);
    LaterTransitive(base, s.db, f.db);
    PreparedStays(base, f.db, m);
    if Owed(g, m) {
      var x := KeptFor(base, SinglesOf(s), m);
      NoRival(g, s, base, x, m);
      CleanConvIsKept(base, x);
      KeptIsPushed(s.db, rest, Prepare(base, x));
      PushedIsCovered(f.db, f.pushes, m);
      NowCovered(g, f.db, s.topic + s.pending, f.pushes, m);
      assert s.topic + s.pending + f.pushes == s.topic + (s.pending + f.pushes);
    }
  }

  lemma RetryTracks(g: Goal, start: nat, s: Loop)
    requires LoopInv(s) && Enabled(s, Retry) && Tracks(g, start, s)
    ensures Tracks(g, start, Next(s, Retry))
  {
    hide AllInv, Tidy, LogInv, PushInv, Later, Fresh, Handle, Prepare, IsEarly, Singles, CoveredIf,
         LogCovered, SingleInv;
    var Retrying(base, msgs, k) := s.phase;
    var ms, t := SinglesOf(s), Next(s, Retry);
    if k >= |msgs| {
      assert ms[..k] == ms;
      PhaseFree(g, start, s, Mixed(0));
    } else {
      var m, h := ms[k], Handle(s.db, msgs[k]);
      MoveKeepsInv(s, Retry);
      TablesMove(g, start, s, h.db, h.pushes);
      assert ms[..k + 1] == ms[..k] + [m];
      if !IsEarly(base, m) {
        RetriedIsCovered(g, s);
      }
      PhaseFree(g, start, s.(db := h.db, pending := s.pending + h.pushes), t.phase);
    }
  }

  lemma RetriedIsCovered(g: Goal, s: Loop)
    requires LoopInv(s) && s.phase.Retrying? && Later(g.at, s.db) && s.phase.k < |s.phase.msgs|
    requires !IsEarly(s.phase.base, SinglesOf(s)[s.phase.k])
    ensures var m, h := SinglesOf(s)[s.phase.k], Handle(s.db, s.phase.msgs[s.phase.k]);
      CoveredIf(g, h.db, s.topic + (s.pending + h.pushes), m)
  {
    hide Tidy, LogInv, PushInv, Later, Handle, Prepare, IsEarly, Singles, Covered, SeqInv, SingleInv, GroupInv;
    var Retrying(base, msgs, k) := s.phase;
    var m, h := SinglesOf(s)[k], Handle(s.db, msgs[k]);
    assert msgs[k] == Prepare(base, m);
    if Owed(g, m) {
      DeliverableStays(g.at, s.db, m);
      PreparedCovers(base, s.db, m);
      NowCovered(g, h.db, s.topic + s.pending, h.pushes, m);
      assert s.topic + s.pending + h.pushes == s.topic + (s.pending + h.pushes);
    }
  }

  lemma OtherTracks(g: Goal, start: nat, s: Loop)
    requires LoopInv(s) && Enabled(s, HandleOther) && Tracks(g, start, s)
    ensures Tracks(g, start, Next(s, HandleOther))
  {
    hide LoopInv, Later, Fresh, Handle, Singles, BatchSpec.Others, AllCovered, LogCovered;
    var k, t := s.phase.k, Next(s, HandleOther);
    if k >= |OthersOf(s)| {
      PhaseFree(g, start, s, Flushing(false));
    } else {
      var h := Handle(s.db, OthersOf(s)[k]);
      MoveKeepsInv(s, HandleOther);
      TablesMove(g, start, s, h.db, h.pushes);
      PhaseFree(g, start, s.(db := h.db, pending := s.pending + h.pushes), t.phase);
    }
  }

  // ---------------------------------------------------------------- flush, commit, crash

  lemma FlushTracks(g: Goal, start: nat, s: Loop)
    requires Enabled(s, Flush) && Tracks(g, start, s)
    ensures Tracks(g, start, Next(s, Flush))
  {
    hide Later, AllCovered, LogCovered;
    LaterReflexive(s.db);
    LogCoveredStays(g, start, s, Next(s, Flush));
  }

  lemma SameFrameCovered(g: Goal, db: Db, pushes: seq<Push>, a: Msg, b: Msg)
    requires b == a.(newConv := b.newConv, draw := b.draw) && CoveredIf(g, db, pushes, b)
    ensures CoveredIf(g, db, pushes, a)
  {
    if Owed(g, a) {
      SameFrameOwed(g, a, b);
      SameFrameIs(db, a, b);
      hide Prepare, Owed, Recorded, RowPushed;
    }
  }

  lemma SameFrameIs(db: Db, a: Msg, b: Msg)
    requires b == a.(newConv := b.newConv, draw := b.draw) && a.id == NoId && a.cliId != "" && a.kind == Single
    ensures Prepare(db, a).id == Prepare(db, b).id && (Recorded(db, a) <==> Recorded(db, b))
  {
  }

  lemma SameFrameOwed(g: Goal, a: Msg, b: Msg)
    requires b == a.(newConv := b.newConv, draw := b.draw) && Owed(g, a)
    ensures Owed(g, b) && a.id == NoId && a.cliId != "" && a.kind == Single
  {
    SameFrameIs(g.end, a, b);
    hide Prepare, IsEarly;
    forall i | 0 <= i < |g.log| && g.log[i].Some?
      ensures !Rivals(g.end, Normalise(g.log[i].value), b)
    {
      assert !Rivals(g.end, Normalise(g.log[i].value), a);
    }
  }

  lemma CommitTracks(g: Goal, start: nat, s: Loop)
    requires LoopInv(s) && Enabled(s, Commit) && Tracks(g, start, s)
    ensures Tracks(g, start, Next(s, Commit))
  {
    hide AllInv, Tidy, Later, CoveredIf, FromServer, PushInv, Singles, BatchSpec.Others;
    var t := Next(s, Commit);
    forall o | start <= o < t.committed && t.log[o].Some?
      ensures CoveredIf(g, t.db, t.topic, Normalise(t.log[o].value))
    {
      if o >= s.committed {
        var a, b := s.log[o], s.frames[o - s.committed];
        assert SameFrame(s.log[s.committed + (o - s.committed)], b);
        SplitMeans(s.frames);
        var m := Normalise(b.value);
        if m.kind != Single {
          NotOwed(g, t.db, t.topic, m);
        }
        SameFrameCovered(g, t.db, t.topic, Normalise(a.value), m);
      }
    }
  }

  lemma CrashTracks(g: Goal, start: nat, s: Loop, written: seq<Push>)
    requires Tracks(g, start, s)
    ensures Tracks(g, start, Next(s, Crash(written)))
  {
    hide Later, LogCovered;
    LaterReflexive(s.db);
    LogCoveredStays(g, start, s, Next(s, Crash(written)));
  }

  lemma OutsideTracks(g: Goal, start: nat, s: Loop, move: Move)
    requires LoopInv(s) && Enabled(s, move) && Tracks(g, start, s)
    requires move.Elsewhere? || move.BulkElsewhere? || move.Produce?
    ensures Tracks(g, start, Next(s, move))
  {
    hide LoopInv, Enabled, Later, InFlight, LogCovered, FinishBatch, ChatRuns.Perform;
    MoveKeepsInv(s, move);
    var t := Next(s, move);
    TablesMove(g, start, s, t.db, []);
    assert s.pending + [] == s.pending;
    LogCoveredStays(g, start, s, t);
    LogFree(g, s.(db := t.db), t.log);
  }

  lemma LogFree(g: Goal, s: Loop, log: seq<Option<Msg>>)
    requires InFlight(g, s)
    ensures InFlight(g, s.(log := log))
  {
  }

  lemma MoveTracks(g: Goal, start: nat, s: Loop, move: Move)
    requires LoopInv(s) && Enabled(s, move) && Tracks(g, start, s) && Leads(s, g)
    ensures Tracks(g, start, Next(s, move))
  {
    match move
    case Open => hide *; OpenTracks(g, start, s);
    case Store => hide *; StoreTracks(g, start, s);
    case Retry => hide *; RetryTracks(g, start, s);
    case HandleOther => hide *; OtherTracks(g, start, s);
    case Flush => hide *; FlushTracks(g, start, s);
    case Commit => hide *; CommitTracks(g, start, s);
    case Crash(written) => hide *; CrashTracks(g, start, s, written);
    case Fetch(_) => hide LoopInv, Later; PhaseFree(g, start, s, Fetched);
    case Resolve => hide LoopInv, Later; PhaseFree(g, start, s, Opening(s.db, []));
    case Fail => hide LoopInv, Later; PhaseFree(g, start, s, Flushing(true));
    case _ => hide *; OutsideTracks(g, start, s, move);
  }

  lemma LeadsOn(s: Loop, move: Move, g: Goal)
    requires Later(s.db, Next(s, move).db) && Leads(Next(s, move), g)
    ensures Leads(s, g)
  {
    LogGrows(s, move);
    hide Next, Later;
    LaterTransitive(s.db, Next(s, move).db, g.end);
  }

  lemma {:induction false} RunTracks(g: Goal, s: Loop, moves: seq<Move>)
    requires LoopInv(s) && s.phase.Idle? && Possible(s, moves) && g.at == s.db && Leads(RunLoop(s, moves), g)
    ensures Tracks(g, s.committed, RunLoop(s, moves))
  {
    hide LoopInv, Enabled, Next, Later, Leads;
    if moves == [] {
      LaterReflexive(s.db);
      IdleInLog(s);
    } else {
      var k := |moves| - 1;
      RunKeepsLoopInv(s, moves[..k]);
      MoveKeepsInv(RunLoop(s, moves[..k]), moves[k]);
      LeadsOn(RunLoop(s, moves[..k]), moves[k], g);
      RunTracks(g, s, moves[..k]);
      MoveTracks(g, s.committed, RunLoop(s, moves[..k]), moves[k]);
    }
  }

  lemma IdleInLog(s: Loop)
    requires LoopInv(s)
    ensures s.committed <= |s.log|
  {
  }

  ghost predicate OwedFrame(at: Db, t: Loop, frame: Option<Msg>) {
    frame.Some? && Owed(Goal(at, t.db, t.log), Normalise(frame.value))
  }

  /** At-least-once, through every crash and outage: start anywhere between two batches. A frame of
      the log that the worker has to accept and that has no rival, as soon as its offset is committed,
      has its row under the one id that belongs to it, and a push of that row to its receiver has been
      written. */
  lemma {:induction false} CommittedIsDelivered(s: Loop, moves: seq<Move>, o: nat)
    requires LoopInv(s) && s.phase.Idle? && Possible(s, moves)
    requires s.committed <= o < RunLoop(s, moves).committed
    ensures var t := RunLoop(s, moves);
      && o < |t.log|
      && (OwedFrame(s.db, t, t.log[o]) ==> Covered(t.db, t.topic, Normalise(t.log[o].value)))
  {
    var t := RunLoop(s, moves);
    var g := Goal(s.db, t.db, t.log);
    LaterReflexive(t.db);
    hide LoopInv, Possible, RunLoop, Later, InFlight, Covered, Deliverable, Unrivalled;
    RunTracks(g, s, moves);
    assert t.log[o].Some? ==> CoveredIf(g, t.db, t.topic, Normalise(t.log[o].value));
  }

  // ---------------------------------------------------------------- one receiver for one client id

  predicate SameClientId(x: Msg, m: Msg) {
    x.kind == Single && m.kind == Single && x.fromUid == m.fromUid && x.cliId == m.cliId
  }

  /** Clients keep to the rules: no conversation with a bar, and no client id used for two receivers. */
  ghost predicate OneReceiver(log: seq<Option<Msg>>, m: Msg) {
    forall i :: 0 <= i < |log| && log[i].Some? ==>
      var x := Normalise(log[i].value);
      && (x.kind == Single ==> '|' !in x.convId)
      && (SameClientId(x, m) ==> x.toUid == m.toUid)
  }

  lemma SameIdSameClientId(end: Db, x: Msg, m: Msg)
    requires SingleInv(end) && x.kind == Single && m.kind == Single && x.id == NoId && m.id == NoId && m.cliId != ""
    requires '|' !in x.convId && '|' !in x.fromUid && '|' !in m.convId && '|' !in m.fromUid
    ensures Prepare(end, x).id == Prepare(end, m).id ==> SameClientId(x, m)
  {
    var p, q := Prepare(end, x), Prepare(end, m);
    IdNameInjective(p.convId, p.fromUid, p.cliId, q.convId, q.fromUid, q.cliId);
  }

  /** Then a frame with a client id has no rival. */
  lemma OneReceiverIsEnough(t: Loop, m: Msg)
    requires LoopInv(t) && OneReceiver(t.log, m)
    requires m.kind == Single && m.id == NoId && m.cliId != "" && '|' !in m.convId && '|' !in m.fromUid
    ensures Unrivalled(t.db, t.log, m)
  {
    LoopHasSingles(t);
    hide LoopInv, SingleInv, Prepare, IsEarly, Normalise;
    forall i | 0 <= i < |t.log| && t.log[i].Some?
      ensures !Rivals(t.db, Normalise(t.log[i].value), m)
    {
      var x := Normalise(t.log[i].value);
      if x.kind == Single {
        SameIdSameClientId(t.db, x, m);
      }
    }
  }

  lemma LoopHasSingles(t: Loop)
    requires LoopInv(t)
    ensures SingleInv(t.db)
    ensures forall i :: 0 <= i < |t.log| && t.log[i].Some? ==>
      var x := Normalise(t.log[i].value); x.kind == Single ==> x.id == NoId && '|' !in x.fromUid
  {
  }

  ghost predicate RuledFrame(at: Db, t: Loop, frame: Option<Msg>) {
    frame.Some? && Deliverable(at, Normalise(frame.value)) && OneReceiver(t.log, Normalise(frame.value))
  }

  /** So, as long as clients keep to the rules, every committed frame that had to be accepted is
      delivered to its receiver. */
  lemma {:induction false} EveryReceiverIsServed(s: Loop, moves: seq<Move>, o: nat)
    requires LoopInv(s) && s.phase.Idle? && Possible(s, moves)
    requires s.committed <= o < RunLoop(s, moves).committed
    ensures var t := RunLoop(s, moves);
      && o < |t.log|
      && (RuledFrame(s.db, t, t.log[o]) ==> Covered(t.db, t.topic, Normalise(t.log[o].value)))
  {
    RunKeepsLoopInv(s, moves);
    CommittedIsDelivered(s, moves, o);
    var t := RunLoop(s, moves);
    if RuledFrame(s.db, t, t.log[o]) {
      var m := Normalise(t.log[o].value);
      LoopHasSingles(t);
      hide LoopInv, Possible, RunLoop, Covered, Unrivalled, SingleInv;
      OneReceiverIsEnough(t, m);
    }
  }
}
