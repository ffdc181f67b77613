// One undisturbed turn of the process is one call of the batch function: the state machine and the
// consumer loop agree.
module PersistLoopTurn {
  import opened Wrappers
  import opened Chat
  import opened Tables
  import opened PersistSpec
  import opened BatchSpec
  import opened BatchBulk
  import opened ChatRuns
  import opened GroupInvariants
  import opened PersistLoop
  import opened PersistLoopSafety

  /** Empty tables and a log of client frames: where everything starts. */
  lemma StartIsInOrder(log: seq<Option<Msg>>)
    requires forall i :: 0 <= i < |log| && log[i].Some? ==> FromServer(EMPTY, Normalise(log[i].value))
    ensures LoopInv(Loop(log, 0, EMPTY, [], [], [], Idle))
  {
    assert AllInv(EMPTY);
  }

  function Repeat(s: Loop, move: Move, n: nat): Loop {
    if n == 0 then s else Next(Repeat(s, move, n - 1), move)
  }

  // ---------------------------------------------------------------- single moves

  function Outcome(s: Loop, d: Db, pushes: seq<Push>, failed: bool, next: Phase): Loop {
    s.(db := d, pending := s.pending + pushes, phase := if failed then Flushing(true) else next)
  }

  lemma OpenMove(s: Loop, e: EarlyRun)
    requires s.phase == Opening(s.db, []) && |e.msgs| < |SinglesOf(s)|
    ensures var m := SinglesOf(s)[|e.msgs|];
      var h, p := Handle(e.db, m), Prepare(s.db, m);
      Next(Outcome(s, e.db, e.pushes, e.failed, Opening(s.db, e.msgs)), Open) ==
        if e.failed || !IsEarly(s.db, m) then Outcome(s, e.db, e.pushes, e.failed, Opening(s.db, e.msgs + [p]))
        else Outcome(s, h.db, e.pushes + h.pushes, h.status == Fault, Opening(s.db, e.msgs + [h.msg]))
  {
    hide Handle, IsEarly, Prepare, Singles;
  }

  lemma RetryMove(s: Loop, r: Ran, base: Db, msgs: seq<Msg>, k: nat)
    requires k < |msgs|
    ensures var h := Handle(r.db, msgs[k]);
      Next(Outcome(s, r.db, r.pushes, r.failed, Retrying(base, msgs, k)), Retry) ==
        if r.failed then Outcome(s, r.db, r.pushes, true, Retrying(base, msgs, k + 1))
        else Outcome(s, h.db, r.pushes + h.pushes, h.status == Fault, Retrying(base, msgs, k + 1))
  {
    hide Handle;
  }

  lemma OtherMove(s: Loop, r: Ran, k: nat)
    requires k < |OthersOf(s)|
    ensures var h := Handle(r.db, OthersOf(s)[k]);
      Next(Outcome(s, r.db, r.pushes, r.failed, Mixed(k)), HandleOther) ==
        if r.failed then Outcome(s, r.db, r.pushes, true, Mixed(k + 1))
        else Outcome(s, h.db, r.pushes + h.pushes, h.status == Fault, Mixed(k + 1))
  {
    hide Handle, BatchSpec.Others;
  }

  lemma Idles(s: Loop)
    requires s.phase == Flushing(true)
    ensures Next(s, Open) == Next(s, Store) == Next(s, Retry) == Next(s, HandleOther) == s
  {
  }

  // ---------------------------------------------------------------- a move repeated

  lemma Repeats(s: Loop, move: Move, n: nat)
    ensures Repeat(s, move, 0) == s
    ensures n > 0 ==> Repeat(s, move, n) == Next(Repeat(s, move, n - 1), move)
  {
    hide Next;
  }

  lemma NothingDone(s: Loop, base: Db, msgs: seq<Msg>)
    ensures s.phase == Opening(s.db, []) ==>
      && s == Outcome(s, s.db, [], false, Opening(s.db, []))
      && RunEarly(s.db, SinglesOf(s)[..0]) == EarlyRun(s.db, [], [], false)
    ensures s.phase == Retrying(base, msgs, 0) ==> s == Outcome(s, s.db, [], false, Retrying(base, msgs, 0))
    ensures s.phase == Mixed(0) ==> s == Outcome(s, s.db, [], false, Mixed(0))
    ensures HandleAll(s.db, msgs[..0]) == HandleAll(s.db, OthersOf(s)[..0]) == Ran(s.db, [], false)
  {
    hide Singles, BatchSpec.Others;
    assert s.pending + [] == s.pending;
  }

  lemma {:induction false} OpenAll(s: Loop, n: nat)
    requires s.phase == Opening(s.db, []) && n <= |SinglesOf(s)|
    ensures var e := RunEarly(s.db, SinglesOf(s)[..n]);
      Repeat(s, Open, n) == Outcome(s, e.db, e.pushes, e.failed, Opening(s.db, e.msgs))
  {
    hide *;
    Repeats(s, Open, n);
    if n == 0 {
      NothingDone(s, s.db, []);
    } else {
      OpenAll(s, n - 1);
      RunEarlyMore(s.db, SinglesOf(s), n - 1);
      OpenMove(s, RunEarly(s.db, SinglesOf(s)[..n - 1]));
    }
  }

  lemma {:induction false} RetryAll(s: Loop, base: Db, msgs: seq<Msg>, n: nat)
    requires s.phase == Retrying(base, msgs, 0) && n <= |msgs|
    ensures var r := HandleAll(s.db, msgs[..n]);
      Repeat(s, Retry, n) == Outcome(s, r.db, r.pushes, r.failed, Retrying(base, msgs, n))
  {
    hide *;
    Repeats(s, Retry, n);
    if n == 0 {
      NothingDone(s, base, msgs);
    } else {
      RetryAll(s, base, msgs, n - 1);
      HandleAllMore(s.db, msgs, n - 1);
      RetryMove(s, HandleAll(s.db, msgs[..n - 1]), base, msgs, n - 1);
    }
  }

  lemma {:induction false} OtherAll(s: Loop, n: nat)
    requires s.phase == Mixed(0) && n <= |OthersOf(s)|
    ensures var r := HandleAll(s.db, OthersOf(s)[..n]);
      Repeat(s, HandleOther, n) == Outcome(s, r.db, r.pushes, r.failed, Mixed(n))
  {
    hide *;
    Repeats(s, HandleOther, n);
    if n == 0 {
      NothingDone(s, s.db, []);
    } else {
      OtherAll(s, n - 1);
      HandleAllMore(s.db, OthersOf(s), n - 1);
      OtherMove(s, HandleAll(s.db, OthersOf(s)[..n - 1]), n - 1);
    }
  }

  lemma Stays(s: Loop, move: Move)
    requires (move == Retry && !s.phase.Retrying?) || (move == HandleOther && !s.phase.Mixed?)
    ensures Next(s, move) == s
  {
  }

  lemma {:induction false} NotMyPhase(s: Loop, move: Move, n: nat)
    requires (move == Retry && !s.phase.Retrying?) || (move == HandleOther && !s.phase.Mixed?)
    ensures Repeat(s, move, n) == s
  {
    hide *;
    Repeats(s, move, n);
    Stays(s, move);
    if n > 0 {
      NotMyPhase(s, move, n - 1);
    }
  }

  /** The move that finds nothing left to do goes on to the next phase. */
  lemma Done(s: Loop, base: Db, msgs: seq<Msg>)
    ensures s.phase == Opening(base, msgs) && |msgs| >= |SinglesOf(s)| ==> Next(s, Open) == s.(phase := Storing(base, msgs))
    ensures s.phase == Retrying(base, msgs, |msgs|) ==> Next(s, Retry) == s.(phase := Mixed(0))
    ensures s.phase == Mixed(|OthersOf(s)|) ==> Next(s, HandleOther) == s.(phase := Flushing(false))
  {
    hide Singles, BatchSpec.Others;
  }

  // ---------------------------------------------------------------- a turn

  lemma {:induction false} Opened(s: Loop)
    requires s.phase == Opening(s.db, [])
    ensures var e := RunEarly(s.db, SinglesOf(s));
      Repeat(s, Open, |SinglesOf(s)| + 1) == Outcome(s, e.db, e.pushes, e.failed, Storing(s.db, e.msgs))
  {
    hide Next, Repeat, RunEarly, Handle, Singles;
    var n := |SinglesOf(s)|;
    OpenAll(s, n);
    assert SinglesOf(s)[..n] == SinglesOf(s);
    Repeats(s, Open, n + 1);
    var t := Repeat(s, Open, n);
    if RunEarly(s.db, SinglesOf(s)).failed {
      Idles(t);
    } else {
      Done(t, s.db, RunEarly(s.db, SinglesOf(s)).msgs);
    }
  }

  lemma {:induction false} AllRetried(s: Loop, base: Db, msgs: seq<Msg>)
    requires s.phase == Retrying(base, msgs, 0)
    ensures var r := HandleAll(s.db, msgs);
      Repeat(s, Retry, |msgs| + 1) == Outcome(s, r.db, r.pushes, r.failed, Mixed(0))
  {
    hide Next, Repeat, HandleAll, Handle;
    RetryAll(s, base, msgs, |msgs|);
    assert msgs[..|msgs|] == msgs;
    Repeats(s, Retry, |msgs| + 1);
    var t := Repeat(s, Retry, |msgs|);
    if HandleAll(s.db, msgs).failed {
      Idles(t);
    } else {
      Done(t, base, msgs);
    }
  }

  lemma {:induction false} HandledOthers(s: Loop)
    requires s.phase == Mixed(0)
    ensures var r := HandleAll(s.db, OthersOf(s));
      Repeat(s, HandleOther, |OthersOf(s)| + 1) == Outcome(s, r.db, r.pushes, r.failed, Flushing(false))
  {
    hide Next, Repeat, HandleAll, Handle, BatchSpec.Others;
    var n := |OthersOf(s)|;
    OtherAll(s, n);
    assert OthersOf(s)[..n] == OthersOf(s);
    Repeats(s, HandleOther, n + 1);
    var t := Repeat(s, HandleOther, n);
    if HandleAll(s.db, OthersOf(s)).failed {
      Idles(t);
    } else {
      Done(t, s.db, []);
    }
  }

  lemma {:induction false} StoreMove(s: Loop, base: Db, msgs: seq<Msg>)
    requires s.phase == Storing(base, msgs)
    ensures var f := FinishBatch(s.db, Firsts(Rest(base, SinglesOf(s))));
      Next(s, Store) == Outcome(s, f.db, f.pushes, f.status == Failed,
                                if f.status == Fallback then Retrying(base, msgs, 0) else Mixed(0))
  {
    hide FinishBatch, Firsts, Rest, Singles;
  }

  /** Nobody else moving and nothing failing, the transactions of a turn leave exactly what the batch
      function says, and commit exactly when it says so. */
  lemma TurnIsConsume(s: Loop)
    requires s.phase == Fetched && s.pending == []
    ensures var begun := Repeat(Next(s, Resolve), Open, |SinglesOf(s)| + 1);
      var retried := Repeat(Next(begun, Store), Retry, |SinglesOf(s)| + 1);
      var c := Consume(s.db, s.frames);
      Repeat(retried, HandleOther, |OthersOf(s)| + 1) == Outcome(s, c.db, c.pushes, c.failed, Flushing(false))
  {
    hide Next, RunEarly, FinishBatch, HandleAll, Rest, Firsts, Singles, BatchSpec.Others, Repeat, Consume;
    ResolveMove(s);
    var s0 := Next(s, Resolve);
    Opened(s0);
    var begun := Repeat(s0, Open, |SinglesOf(s)| + 1);
    if RunEarly(s.db, SinglesOf(s)).failed {
      FailedIsConsume(s, begun);
    } else {
      StoreMove(begun, s.db, RunEarly(s.db, SinglesOf(s)).msgs);
      StoredIsConsume(s, Next(begun, Store));
    }
  }

  lemma ResolveMove(s: Loop)
    ensures Next(s, Resolve) == s.(phase := Opening(s.db, []))
  {
  }

  lemma FailedIsConsume(s: Loop, begun: Loop)
    requires s.pending == []
    requires var e := RunEarly(s.db, SinglesOf(s));
      e.failed && begun == s.(db := e.db, pending := s.pending + e.pushes, phase := Flushing(true))
    ensures var retried := Repeat(Next(begun, Store), Retry, |SinglesOf(s)| + 1);
      var c := Consume(s.db, s.frames);
      Repeat(retried, HandleOther, |OthersOf(s)| + 1) == Outcome(s, c.db, c.pushes, c.failed, Flushing(false))
  {
    hide Next, RunEarly, FinishBatch, HandleAll, Rest, Firsts, Singles, BatchSpec.Others, Repeat;
    Idles(begun);
    NotMyPhase(begun, Retry, |SinglesOf(s)| + 1);
    NotMyPhase(begun, HandleOther, |OthersOf(s)| + 1);
  }

  lemma StoredIsConsume(s: Loop, stored: Loop)
    requires s.pending == []
    requires var e := RunEarly(s.db, SinglesOf(s)); var f := FinishBatch(e.db, Firsts(Rest(s.db, SinglesOf(s))));
      && !e.failed
      && stored == Outcome(s, f.db, e.pushes + f.pushes, f.status == Failed,
                           if f.status == Fallback then Retrying(s.db, e.msgs, 0) else Mixed(0))
    ensures var retried := Repeat(stored, Retry, |SinglesOf(s)| + 1);
      var c := Consume(s.db, s.frames);
      Repeat(retried, HandleOther, |OthersOf(s)| + 1) == Outcome(s, c.db, c.pushes, c.failed, Flushing(false))
  {
    hide Next, RunEarly, FinishBatch, HandleAll, Rest, Firsts, Singles, BatchSpec.Others, Repeat;
    var ms, os, e := SinglesOf(s), OthersOf(s), RunEarly(s.db, SinglesOf(s));
    if stored.phase.Retrying? {
      AllRetried(stored, s.db, e.msgs);
    } else {
      NotMyPhase(stored, Retry, |ms| + 1);
    }
    var retried := Repeat(stored, Retry, |ms| + 1);
    if retried.phase.Mixed? {
      HandledOthers(retried);
    } else {
      NotMyPhase(retried, HandleOther, |os| + 1);
    }
  }

  /** And unless a frame of the batch fails, such a turn ends with its pushes written and its offsets
      committed. */
  lemma TurnCommits(s: Loop)
    requires s.phase == Fetched && s.pending == [] && !Consume(s.db, s.frames).failed
    ensures var begun := Repeat(Next(s, Resolve), Open, |SinglesOf(s)| + 1);
      var retried := Repeat(Next(begun, Store), Retry, |SinglesOf(s)| + 1);
      var flushed := Next(Repeat(retried, HandleOther, |OthersOf(s)| + 1), Flush);
      var c := Consume(s.db, s.frames);
      Next(flushed, Commit) ==
        s.(committed := s.committed + |s.frames|, frames := [], db := c.db, topic := s.topic + c.pushes, pending := [],
           phase := Idle)
  {
    hide *;
    TurnIsConsume(s);
    var c := Consume(s.db, s.frames);
    FlushThenCommit(s, c.db, c.pushes);
  }

  /** If a frame fails, it ends with the pushes of the others written all the same, and no offset
      committed. */
  lemma TurnFails(s: Loop)
    requires s.phase == Fetched && s.pending == [] && Consume(s.db, s.frames).failed
    ensures var begun := Repeat(Next(s, Resolve), Open, |SinglesOf(s)| + 1);
      var retried := Repeat(Next(begun, Store), Retry, |SinglesOf(s)| + 1);
      var c := Consume(s.db, s.frames);
      Next(Repeat(retried, HandleOther, |OthersOf(s)| + 1), Flush) ==
        s.(frames := [], db := c.db, topic := s.topic + c.pushes, pending := [], phase := Idle)
  {
    hide *;
    TurnIsConsume(s);
    var c := Consume(s.db, s.frames);
    FlushAfterFailure(s, c.db, c.pushes);
  }

  lemma FlushAfterFailure(s: Loop, d: Db, pushes: seq<Push>)
    requires s.pending == []
    ensures Next(Outcome(s, d, pushes, true, Flushing(false)), Flush) ==
      s.(frames := [], db := d, topic := s.topic + pushes, pending := [], phase := Idle)
  {
    assert s.pending + pushes == pushes;
  }

  lemma FlushThenCommit(s: Loop, d: Db, pushes: seq<Push>)
    requires s.pending == []
    ensures Next(Next(Outcome(s, d, pushes, false, Flushing(false)), Flush), Commit) ==
      s.(committed := s.committed + |s.frames|, frames := [], db := d, topic := s.topic + pushes, pending := [],
         phase := Idle)
  {
    assert s.pending + pushes == pushes;
  }
}
