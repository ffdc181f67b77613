// Redelivery: what the persist worker does with frames that it, or another worker, has stored before,
// in batches where they stand between new ones.
module PersistLoopRedelivery {
  import opened Wrappers
  import opened Chat
  import opened Tables
  import opened PersistSpec
  import opened PersistInvariants
  import opened BatchSpec
  import opened BatchBulk
  import opened BatchRefines
  import opened GroupInvariants
  import opened ChatRuns
  import opened Delivered
  import opened PersistLoop
  import opened PersistLoopSafety

  // ---------------------------------------------------------------- frames that have been opened

  /** A first frame of a pair, once it has been through the slow path: rejected and as it was, or
      stored. */
  predicate SettledMsg(db: Db, m: Msg, filled: Msg) {
    filled == m || (filled.kind == Single && filled.convId != "" && filled.id != NoId && filled.id in db.messages)
  }

  predicate SettledAll(base: Db, db: Db, ms: seq<Msg>, msgs: seq<Msg>) {
    forall i :: 0 <= i < |msgs| && i < |ms| && IsEarly(base, ms[i]) ==> SettledMsg(db, ms[i], msgs[i])
  }

  predicate LoopSettled(s: Loop) {
    match s.phase
    case Opening(base, msgs) => SettledAll(base, s.db, SinglesOf(s), msgs)
    case Storing(base, msgs) => SettledAll(base, s.db, SinglesOf(s), msgs)
    case Retrying(base, msgs, _) => SettledAll(base, s.db, SinglesOf(s), msgs)
    case _ => true
  }

  lemma SettledStays(base: Db, a: Db, b: Db, ms: seq<Msg>, msgs: seq<Msg>)
    requires Later(a, b) && SettledAll(base, a, ms, msgs)
    ensures SettledAll(base, b, ms, msgs)
  {
    hide IsEarly;
  }

  lemma StoredHasId(d: Db, m: Msg)
    ensures var h := StoreAndPush(d, m, []);
      h.status == Accepted ==> h.msg.id in h.db.messages && h.msg.id != NoId && h.msg.convId == m.convId && h.msg.kind == m.kind
  {
    hide Numbered;
  }

  lemma ValidatedHasConv(db: Db, m: Msg)
    requires SingleInv(db) && DrawsUnused(db, m) && m.kind == Single && m.convId == ""
    ensures match ValidateSingle(db, m)
      case Pass(_, m1) => m1.convId != "" && m1.kind == Single
      case _ => true
  {
  }

  lemma HandledIsSettled(db: Db, m: Msg)
    requires SingleInv(db) && DrawsUnused(db, m) && m.kind == Single && m.convId == ""
    ensures Handle(db, m).status != Fault ==> SettledMsg(Handle(db, m).db, m, Handle(db, m).msg)
  {
    hide SingleInv, DrawsUnused, StoreAndPush, ValidateSingle;
    ValidatedHasConv(db, m);
    StoreNeverPoison(db);
    match ValidateSingle(db, m)
    case Pass(d, m1) => StoredHasId(d, m1); StoreNeverPoison(d);
    case _ =>
  }

  lemma SettledSnoc(base: Db, db: Db, ms: seq<Msg>, msgs: seq<Msg>, m: Msg)
    requires SettledAll(base, db, ms, msgs) && |msgs| < |ms|
    requires IsEarly(base, ms[|msgs|]) ==> SettledMsg(db, ms[|msgs|], m)
    ensures SettledAll(base, db, ms, msgs + [m])
  {
    hide IsEarly, SettledMsg;
  }

  lemma OpenSettles(s: Loop)
    requires LoopInv(s) && Enabled(s, Open) && LoopSettled(s)
    ensures LoopSettled(Next(s, Open))
  {
    MoveKeepsInv(s, Open);
    hide AllInv, Tidy, LogInv, PushInv, Later, Fresh, SingleInv, Handle, Prepare, IsEarly, Singles, SettledAll, Filled;
    var Opening(base, msgs) := s.phase;
    if |msgs| < |SinglesOf(s)| {
      var m := SinglesOf(s)[|msgs|];
      if IsEarly(base, m) {
        var h := Handle(s.db, m);
        SettledStays(base, s.db, h.db, SinglesOf(s), msgs);
        EarlyIsSettled(s, base, m);
        if h.status != Fault {
          SettledSnoc(base, h.db, SinglesOf(s), msgs, h.msg);
        }
      } else {
        SettledSnoc(base, s.db, SinglesOf(s), msgs, Prepare(base, m));
      }
    }
  }

  lemma EarlyIsSettled(s: Loop, base: Db, m: Msg)
    requires LoopInv(s) && m in SinglesOf(s) && IsEarly(base, m) && Fresh(s.db, m)
    ensures Handle(s.db, m).status != Fault ==> SettledMsg(Handle(s.db, m).db, m, Handle(s.db, m).msg)
  {
    BatchFromServer(s, m);
    hide Handle, SettledMsg, Singles, SeqInv, SingleInv;
    HandledIsSettled(s.db, m);
  }

  lemma MoveSettles(s: Loop, move: Move)
    requires LoopInv(s) && Enabled(s, move) && LoopSettled(s)
    ensures LoopSettled(Next(s, move))
  {
    if move == Open {
      hide *;
      OpenSettles(s);
    } else {
      hide LoopInv, Later, Handle, FinishBatch, Rest, Singles, BatchSpec.Others, Perform, SettledAll, SoundStep,
           BatchSound,
           Fresh, FromServer, IdFits;
      MoveKeepsInv(s, move);
      match s.phase
      case Opening(base, msgs) => SettledStays(base, s.db, Next(s, move).db, SinglesOf(s), msgs);
      case Storing(base, msgs) => SettledStays(base, s.db, Next(s, move).db, SinglesOf(s), msgs);
      case Retrying(base, msgs, _) => SettledStays(base, s.db, Next(s, move).db, SinglesOf(s), msgs);
      case _ => OpensEmpty(s, move);
    }
  }

  lemma OpensEmpty(s: Loop, move: Move)
    requires Enabled(s, move) && !s.phase.Opening? && !s.phase.Storing? && !s.phase.Retrying?
    ensures LoopSettled(Next(s, move))
  {
    hide Later, Handle, FinishBatch, Rest, Singles, BatchSpec.Others, Perform, IsEarly, SoundStep, BatchSound,
         Fresh, FromServer;
  }

  lemma {:induction false} RunSettles(s: Loop, moves: seq<Move>)
    requires LoopInv(s) && s.phase.Idle? && Possible(s, moves)
    ensures LoopSettled(RunLoop(s, moves))
  {
    hide LoopInv, Enabled, Next, SettledAll;
    if moves != [] {
      var k := |moves| - 1;
      RunSettles(s, moves[..k]);
      RunKeepsLoopInv(s, moves[..k]);
      MoveSettles(RunLoop(s, moves[..k]), moves[k]);
    }
  }

  // ---------------------------------------------------------------- one frame, recorded or not

  /** The frame a transaction of the worker is about; None for the bulk transaction and for moves that
      handle none. */
  function HandledBy(s: Loop, move: Move): Option<Msg> {
    match (s.phase, move)
    case (Opening(_, msgs), Open) => if |msgs| < |SinglesOf(s)| then Some(SinglesOf(s)[|msgs|]) else None
    case (Retrying(_, msgs, k), Retry) => if k < |msgs| && k < |SinglesOf(s)| then Some(SinglesOf(s)[k]) else None
    case (Mixed(k), HandleOther) => if k < |OthersOf(s)| then Some(OthersOf(s)[k]) else None
    case _ => None
  }

  /** What a transaction about one frame does to the tables. */
  predicate OwnRowOnly(a: Db, b: Db, m: Msg) {
    && (Recorded(a, m) ==> b == a)
    && b.messages.Keys <= a.messages.Keys + {IdIn(b, m)}
  }

  lemma HandledIsOwn(db: Db, m: Msg)
    requires SingleInv(db) && m.kind != Unset
    ensures OwnRowOnly(db, Handle(db, m).db, m)
  {
    hide Handle, Recorded, IdIn, SingleInv;
    HandleAddsOwnRow(db, m);
    if Recorded(db, m) {
      RecordedIsIdle(db, m);
    }
  }

  lemma OpenIsOwn(s: Loop)
    requires LoopInv(s) && Enabled(s, Open) && HandledBy(s, Open).Some?
    ensures OwnRowOnly(s.db, Next(s, Open).db, HandledBy(s, Open).value)
  {
    hide LoopInv, Fresh, Handle, OwnRowOnly, IsEarly, Singles, Prepare;
    var m := HandledBy(s, Open).value;
    LoopBasics(s);
    hide SingleInv, LogInv;
    BatchFromServer(s, m);
    HandledIsOwn(s.db, m);
    SameIsOwn(s.db, m);
  }

  lemma LoopBasics(s: Loop)
    requires LoopInv(s)
    ensures SingleInv(s.db) && LogInv(s) && PhaseInv(s)
  {
  }

  lemma SameIsOwn(db: Db, m: Msg)
    ensures OwnRowOnly(db, db, m)
  {
  }

  lemma OtherIsOwn(s: Loop)
    requires LoopInv(s) && Enabled(s, HandleOther) && HandledBy(s, HandleOther).Some?
    ensures OwnRowOnly(s.db, Next(s, HandleOther).db, HandledBy(s, HandleOther).value)
  {
    hide LoopInv, Fresh, Handle, OwnRowOnly, BatchSpec.Others;
    LoopBasics(s);
    hide SingleInv, LogInv;
    BatchFromServer(s, HandledBy(s, HandleOther).value);
    HandledIsOwn(s.db, HandledBy(s, HandleOther).value);
  }

  lemma PreparedIsResolved(base: Db, d: Db, m: Msg)
    requires SingleInv(base) && Later(base, d) && !IsEarly(base, m) && m.kind == Single
    ensures IdIn(d, Prepare(base, m)) == IdIn(d, m)
  {
    PreparedStays(base, d, m);
  }

  lemma SettledIsIdle(db: Db, filled: Msg)
    requires filled.kind == Single && filled.convId != "" && filled.id != NoId && filled.id in db.messages
    ensures Handle(db, filled).db == db
  {
  }

  lemma PreparedIsOwn(base: Db, db: Db, m: Msg)
    requires SingleInv(base) && SingleInv(db) && Later(base, db) && m.kind == Single && !IsEarly(base, m)
    ensures OwnRowOnly(db, Handle(db, Prepare(base, m)).db, m)
  {
    var p := Prepare(base, m);
    PreparedStays(base, db, m);
    HandleAddsOwnRow(db, p);
    HandleGrows(db, p);
    GrowsIsLater(db, Handle(db, p).db);
    hide Handle, SingleInv;
    LaterTransitive(base, db, Handle(db, p).db);
    hide Later;
    PreparedIsResolved(base, Handle(db, p).db, m);
    if Recorded(db, m) {
      RecordedPreparedIsIdle(db, db, m) by { LaterReflexive(db); }
    }
  }

  lemma RetryIsOwn(s: Loop)
    requires LoopInv(s) && LoopSettled(s) && Enabled(s, Retry) && HandledBy(s, Retry).Some?
    ensures OwnRowOnly(s.db, Next(s, Retry).db, HandledBy(s, Retry).value)
  {
    hide LoopInv, Fresh, Handle, OwnRowOnly, IsEarly, Singles, Prepare, Later, SingleInv;
    LoopBasics(s);
    hide LogInv, Derived;
    var Retrying(base, msgs, k) := s.phase;
    var m := SinglesOf(s)[k];
    BatchFromServer(s, m);
    if !IsEarly(base, m) {
      PreparedIsOwn(base, s.db, m);
    } else if msgs[k] == m {
      HandledIsOwn(s.db, m);
    } else {
      SettledIsIdle(s.db, msgs[k]);
      SameIsOwn(s.db, m);
    }
  }

  /** Redelivery, frame by frame: in every run, whatever crashed before, a transaction of the worker
      about a frame that has its row changes no table, on the slow path, on the fallback of the batch
      and for the first frames of a pair, whatever is drawn this time and whatever stands beside the
      frame in its batch; and a transaction about any frame adds no row but the frame's own. */
  lemma {:induction false} RecordedFrameIsIdle(s: Loop, moves: seq<Move>, move: Move)
    requires LoopInv(s) && s.phase.Idle? && Possible(s, moves) && Enabled(RunLoop(s, moves), move)
    requires HandledBy(RunLoop(s, moves), move).Some?
    ensures var t := RunLoop(s, moves); OwnRowOnly(t.db, Next(t, move).db, HandledBy(t, move).value)
  {
    RunSettles(s, moves);
    RunKeepsLoopInv(s, moves);
    var t := RunLoop(s, moves);
    match move
    case Open => hide *; OpenIsOwn(t);
    case Retry => hide *; RetryIsOwn(t);
    case HandleOther => hide *; OtherIsOwn(t);
    case _ => HandlesNone(t, move);
  }

  lemma HandlesNone(s: Loop, move: Move)
    requires !move.Open? && !move.Retry? && !move.HandleOther?
    ensures HandledBy(s, move) == None
  {
  }

  // ---------------------------------------------------------------- the bulk transaction

  /** The row comes from a frame of the batch that had none. */
  ghost predicate FromNewFrame(s: Loop, id: Id, row: Row) {
    exists m :: m in SinglesOf(s) && !Recorded(s.db, m) && IsRowOf(s, m, id, row)
  }

  predicate IsRowOf(s: Loop, m: Msg, id: Id, row: Row) {
    && s.phase.Storing? && !IsEarly(s.phase.base, m)
    && Prepare(s.phase.base, m).id == id && HoldsMsg(row, Prepare(s.phase.base, m))
  }

  predicate HoldsMsg(row: Row, p: Msg) {
    row.convId == p.convId && row.fromUid == p.fromUid && row.kind == p.kind && row.content == p.content
  }

  lemma {:induction false} FinishAddsNews(db: Db, rest: seq<Msg>, id: Id)
    requires id in FinishBatch(db, Firsts(rest)).db.messages && id !in db.messages
    ensures exists p :: p in rest && p.id == id && HoldsMsg(FinishBatch(db, Firsts(rest)).db.messages[id], p)
  {
    hide Firsts, Unknown, AppendEach, SomeNumberTaken, UsersExist, ConvsExist;
    var news := Unknown(db, Firsts(rest));
    FirstsCover(rest);
    UnknownAreNew(db, Firsts(rest));
    AppendEachAdds(db, news, id);
  }

  lemma {:induction false} AppendEachAdds(db: Db, ms: seq<Msg>, id: Id)
    ensures id in AppendEach(db, ms).messages ==>
      || (id in db.messages && forall p :: p in ms ==> p.id != id)
      || exists p :: p in ms && p.id == id && HoldsMsg(AppendEach(db, ms).messages[id], p)
  {
    if ms != [] {
      AppendEachAdds(db, ms[..|ms| - 1], id);
      assert ms == ms[..|ms| - 1] + [ms[|ms| - 1]];
    }
  }

  lemma UnrecordedFrame(base: Db, db: Db, m: Msg)
    requires Later(base, db) && m.kind == Single && !IsEarly(base, m) && Prepare(base, m).id !in db.messages
    ensures !Recorded(db, m)
  {
    PreparedStays(base, db, m);
  }

  /** The bulk transaction adds rows for frames without one only, with their fields; a frame of the
      batch that has its row adds none. */
  lemma StoreAddsNewFrames(s: Loop, id: Id)
    requires LoopInv(s) && Enabled(s, Store) && id in Next(s, Store).db.messages && id !in s.db.messages
    ensures FromNewFrame(s, id, Next(s, Store).db.messages[id])
  {
    hide LoopInv, FinishBatch, Rest, Prepare, IsEarly, Singles, Firsts, Filled, IdFits;
    LoopBasics(s);
    hide LogInv, SingleInv, Later, Recorded;
    var base, rest := s.phase.base, Rest(s.phase.base, SinglesOf(s));
    FinishAddsNews(s.db, rest, id);
    RestComesFrom(base, SinglesOf(s));
    var p :| p in rest && p.id == id && HoldsMsg(FinishBatch(s.db, Firsts(rest)).db.messages[id], p);
    var m :| m in SinglesOf(s) && !IsEarly(base, m) && p == Prepare(base, m);
    BatchFromServer(s, m);
    UnrecordedFrame(base, s.db, m);
    assert IsRowOf(s, m, id, Next(s, Store).db.messages[id]);
  }

  /** So over every run. */
  lemma {:induction false} RedeliveredBatchAddsNoRow(s: Loop, moves: seq<Move>, id: Id)
    requires LoopInv(s) && Possible(s, moves) && Enabled(RunLoop(s, moves), Store)
    ensures var t := RunLoop(s, moves);
      id in Next(t, Store).db.messages ==> id in t.db.messages || FromNewFrame(t, id, Next(t, Store).db.messages[id])
  {
    RunKeepsLoopInv(s, moves);
    hide *;
    var t := RunLoop(s, moves);
    if id in Next(t, Store).db.messages && id !in t.db.messages {
      StoreAddsNewFrames(t, id);
    }
  }

  // ---------------------------------------------------------------- counters

  function NewRows(a: Db, b: Db, c: ConvId): set<Id> {
    set id | id in b.messages && id !in a.messages && b.messages[id].convId == c
  }

  function RowsOf(db: Db, c: ConvId): set<Id> {
    set id | id in db.messages && db.messages[id].convId == c
  }

  lemma CountersAreNat(db: Db, c: ConvId)
    requires SeqInv(db)
    ensures 0 <= Counter(db, c)
  {
  }

  lemma RowsAreCounted(db: Db, c: ConvId)
    requires SeqInv(db)
    ensures |RowsOf(db, c)| == Counter(db, c)
  {
    CountersAreNat(db, c);
    CounterCountsRows(db, c, Counter(db, c));
    hide SeqInv, Counter;
  }

  lemma RowsGrow(a: Db, b: Db, c: ConvId)
    requires Later(a, b)
    ensures RowsOf(b, c) == RowsOf(a, c) + NewRows(a, b, c) && RowsOf(a, c) !! NewRows(a, b, c)
  {
  }

  lemma CountersMoveWithRows(a: Db, b: Db, c: ConvId)
    requires SeqInv(a) && SeqInv(b) && Later(a, b)
    ensures Counter(b, c) == Counter(a, c) + |NewRows(a, b, c)|
  {
    hide *;
    RowsAreCounted(a, c);
    RowsAreCounted(b, c);
    RowsGrow(a, b, c);
  }

  /** Whatever happens next in a run, a counter moves by exactly the new rows of its conversation: no
      counter advances for a frame that adds no row. */
  lemma {:induction false} CountersFollowRows(s: Loop, moves: seq<Move>, move: Move, c: ConvId)
    requires LoopInv(s) && Possible(s, moves) && Enabled(RunLoop(s, moves), move)
    ensures var t := RunLoop(s, moves); var d := Next(t, move).db;
      Counter(d, c) == Counter(t.db, c) + |NewRows(t.db, d, c)|
  {
    RunKeepsLoopInv(s, moves);
    var t := RunLoop(s, moves);
    hide Next, Enabled;
    MoveKeepsInv(t, move);
    var d := Next(t, move).db;
    hide LogInv, PushInv, PhaseInv, Tidy, SingleInv, GroupInv, Later, RunLoop, Possible;
    hide SeqInv;
    CountersMoveWithRows(t.db, d, c);
  }

  // ---------------------------------------------------------------- a whole batch again

  lemma RedeliveredStore(s: Loop)
    requires LoopInv(s) && Enabled(s, Store) && forall m :: m in SinglesOf(s) ==> Recorded(s.db, m)
    ensures Next(s, Store).db == s.db
  {
    hide LoopInv, FinishBatch, Rest, Prepare, IsEarly, Singles, Firsts, Filled, IdFits;
    LoopBasics(s);
    hide LogInv, SingleInv, Later, Recorded;
    var base, rest := s.phase.base, Rest(s.phase.base, SinglesOf(s));
    RestComesFrom(base, SinglesOf(s));
    forall p | p in rest
      ensures p.id in s.db.messages
    {
      var m :| m in SinglesOf(s) && !IsEarly(base, m) && p == Prepare(base, m);
      BatchFromServer(s, m);
      if p.id !in s.db.messages {
        UnrecordedFrame(base, s.db, m);
      }
    }
    RecordedBatchIsIdle(s.db, rest);
  }

  /** When every frame of the batch in work has its row, no transaction of the worker changes the
      tables at all. */
  lemma {:induction false} RedeliveryChangesNothing(s: Loop, moves: seq<Move>, move: Move)
    requires LoopInv(s) && s.phase.Idle? && Possible(s, moves) && Enabled(RunLoop(s, moves), move)
    requires move.Open? || move.Store? || move.Retry? || move.HandleOther?
    requires var t := RunLoop(s, moves);
      forall m :: m in SinglesOf(t) || m in OthersOf(t) ==> Recorded(t.db, m)
    ensures Next(RunLoop(s, moves), move).db == RunLoop(s, moves).db
  {
    var t := RunLoop(s, moves);
    RunKeepsLoopInv(s, moves);
    if move == Store {
      hide *;
      RedeliveredStore(t);
    } else if HandledBy(t, move).Some? {
      RecordedFrameIsIdle(s, moves, move);
      HandledInBatch(t, move);
      hide Recorded, IdIn, Next, Enabled, Possible, RunLoop, LoopInv, HandledBy;
    } else {
      hide RunLoop, Possible;
      NoFrameLeft(t, move);
    }
  }

  lemma HandledInBatch(s: Loop, move: Move)
    requires HandledBy(s, move).Some?
    ensures HandledBy(s, move).value in SinglesOf(s) || HandledBy(s, move).value in OthersOf(s)
  {
    hide Singles, BatchSpec.Others;
  }

  lemma NoFrameLeft(s: Loop, move: Move)
    requires LoopInv(s) && Enabled(s, move) && HandledBy(s, move) == None
    requires move.Open? || move.Retry? || move.HandleOther?
    ensures Next(s, move).db == s.db
  {
    hide Singles, BatchSpec.Others, Handle, Fresh, AllInv, Tidy, LogInv, PushInv, Later, SingleInv;
  }

  /** A frame has one id for good: every later delivery of it, with whatever is drawn then, computes the
      id of the row it has. */
  lemma OneIdPerFrame(at: Db, db: Db, a: Msg, b: Msg)
    requires Later(at, db) && Recorded(at, a) && a.kind == Single && b == a.(newConv := b.newConv, draw := b.draw)
    ensures Recorded(db, b) && Prepare(db, b).id == Prepare(at, a).id
  {
    PreparedStays(at, db, a);
  }

  /** Redelivery needs the client id: without it a frame that is delivered twice is stored twice, and
      the counter moves by two. */
  lemma NamelessFrameIsStoredTwice(db: Db, m: Msg, draw: nat)
    requires Inv(db) && m.kind == Single && m.id == NoId && m.cliId == ""
    requires m.fromUid in db.users && m.toUid in db.users
    requires m.convId != "" && m.convId in db.convs && (m.convId, m.fromUid) in db.convMembers
    requires m.draw != draw && Drawn(m.draw) !in db.messages && Drawn(draw) !in db.messages
    ensures var first := Handle(db, m).db; var second := Handle(first, m.(draw := draw)).db;
      && Drawn(m.draw) in second.messages && Drawn(draw) in second.messages
      && Counter(second, m.convId) == Counter(db, m.convId) + 2
  {
    var again := m.(draw := draw);
    StoredOnceMore(db, m);
    HandleKeepsInv(db, m);
    HandleGrows(db, m);
    var first := Handle(db, m).db;
    hide Handle, SeqInv, SingleInv;
    StoredOnceMore(first, again);
    HandleGrows(first, again);
  }

  lemma StoredOnceMore(db: Db, m: Msg)
    requires Inv(db) && m.kind == Single && m.id == NoId && m.cliId == "" && Drawn(m.draw) !in db.messages
    requires m.fromUid in db.users && m.toUid in db.users
    requires m.convId != "" && m.convId in db.convs && (m.convId, m.fromUid) in db.convMembers
    ensures var d := Handle(db, m).db;
      && d.messages.Keys == db.messages.Keys + {Drawn(m.draw)} && Counter(d, m.convId) == Counter(db, m.convId) + 1
      && m.convId in d.convs && d.users == db.users && d.convMembers == db.convMembers
  {
    NextNumberIsFree(db, m.convId);
    hide SeqInv, SingleInv, Numbered;
    assert ValidateSingle(db, m) == Pass(db, m);
  }
}
