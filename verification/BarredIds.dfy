// A conversation id is copied from the client: what the batch pushes for a frame whose derived id is
// the id of another conversation's message.
module BarredIds {
  import opened Chat
  import opened Tables
  import opened PersistSpec
  import opened PersistInvariants
  import opened BatchSpec
  import opened BatchBulk
  import opened ChatRuns
  import opened Delivered

  lemma {:induction false} ReplayPushIn(db: Db, ms: seq<Msg>, m: Msg)
    requires forall x :: x in ms ==> x.id in db.messages
    requires m in ms
    ensures ReplayPush(db, m) in ReplayPushes(db, ms)
  {
    var k := |ms| - 1;
    if m != ms[k] {
      assert ms == ms[..k] + [ms[k]];
      ReplayPushIn(db, ms[..k], m);
    }
  }

  /** In any tables: the pushes of a batch that goes through carry stored rows if and only if the id of
      every frame of it that is found stored belongs to the frame's conversation and sender. */
  lemma {:induction false} BatchPushesFit(db: Db, rest: seq<Msg>)
    requires FinishBatch(db, Firsts(rest)).status == BatchStatus.Done
    ensures var f := FinishBatch(db, Firsts(rest));
      (forall p :: p in f.pushes ==> PushOfRow(f.db, p)) <==> forall m :: m in Firsts(rest) ==> IdFits(db, m)
  {
    hide Known, Unknown, Firsts, AppendEach, DistinctIds, IdFits, PushOfRow, ReplayPushes, FreshPushes, SomeNumberTaken,
         UsersExist, ConvsExist, Later;
    var kept, f := Firsts(rest), FinishBatch(db, Firsts(rest));
    var replays, news := Known(db, kept), Unknown(db, kept);
    KnownAreStored(db, kept);
    KnownAreAll(db, kept);
    NewsAreNew(db, rest);
    NewsFit(db, kept);
    LaterReflexive(db);
    AppendEachIsLater(db, news);
    if forall m :: m in kept ==> IdFits(db, m) {
      ReplaysFit(db, replays, f.db);
    }
    if news != [] {
      NewPushes(db, rest);
    }
    if forall p :: p in f.pushes ==> PushOfRow(f.db, p) {
      forall m | m in kept
        ensures IdFits(db, m)
      {
        if m in replays {
          ReplayPushIn(db, replays, m);
          ReplayPushFits(db, m, f.db);
        }
      }
    }
  }

  lemma {:induction false} ReplaysFit(db: Db, ms: seq<Msg>, d: Db)
    requires (forall m :: m in ms ==> m.id in db.messages && IdFits(db, m)) && Later(db, d)
    ensures forall p :: p in ReplayPushes(db, ms) ==> PushOfRow(d, p)
  {
    hide IdFits, PushOfRow, ReplayPush, Later, ReplayPushes;
    ReplayPushesCome(db, ms);
    forall p | p in ReplayPushes(db, ms)
      ensures PushOfRow(d, p)
    {
      var m :| m in ms && p == ReplayPush(db, m);
      ReplayPushFits(db, m, d);
    }
  }

  lemma {:induction false} NewsFit(db: Db, ms: seq<Msg>)
    ensures forall m :: m in ms && m !in Known(db, ms) ==> IdFits(db, m)
  {
    hide Known;
    KnownAreAll(db, ms);
  }

  lemma {:induction false} NewPushes(db: Db, rest: seq<Msg>)
    ensures var news := Unknown(db, Firsts(rest));
      forall p :: p in FreshPushes(db, news, |news|) ==> PushOfRow(AppendEach(db, news), p)
  {
    hide Firsts, Unknown, PushOfRow, AppendEach, FreshPushes;
    var news := Unknown(db, Firsts(rest));
    NewsAreNew(db, rest);
    FreshPushesMean(db, news, |news|, AppendEach(db, news));
  }

  lemma {:induction false} OneKept(db: Db, p: Msg)
    requires p.id in db.messages
    ensures Firsts([p]) == [p] && Known(db, [p]) == [p] && Unknown(db, [p]) == []
  {
    hide Append;
    var none: seq<Msg> := [];
    assert none + [p] == [p];
    FirstsSnoc(none, p);
    UnknownSnoc(db, none, p);
  }

  lemma {:induction false} OneReplay(db: Db, p: Msg)
    requires p.id in db.messages
    ensures ReplayPushes(db, [p]) == [ReplayPush(db, p)]
  {
    hide ReplayPush;
    var none: seq<Msg> := [];
    assert [p][..0] == none;
    assert ReplayPushes(db, [p]) == ReplayPushes(db, none) + [ReplayPush(db, p)];
  }

  lemma FinishOne(db: Db, p: Msg)
    requires p.id in db.messages
    ensures FinishBatch(db, Firsts([p])) == Finished(db, [ReplayPush(db, p)], BatchStatus.Done)
  {
    hide Firsts, Known, Unknown, ReplayPush, ReplayPushes, AppendEach, FreshPushes, SomeNumberTaken, UsersExist,
         ConvsExist;
    OneKept(db, p);
    OneReplay(db, p);
  }

  lemma BatchOfOne(db: Db, m: Msg)
    requires m.convId != "" && Prepare(db, m).id in db.messages
    ensures HandleBatch(db, [m]) ==
      BatchOut(db, [Prepare(db, m)], [ReplayPush(db, Prepare(db, m))], BatchStatus.Done)
  {
    hide FinishBatch, Handle, Prepare, Firsts;
    assert [m][..0] == [];
    assert !IsEarly(db, m);
    assert RunEarly(db, [m]) == EarlyRun(db, [Prepare(db, m)], [], false);
    assert Rest(db, [m]) == [Prepare(db, m)];
    FinishOne(db, Prepare(db, m));
    var push := ReplayPush(db, Prepare(db, m));
    assert [] + [push] == [push];
  }

  /** The instance: with a row of conversation "x" by "y" under the name "x|y|u|c", the frame of "u" to
      "x|y" with the client id "c" goes through the batch, and its push shows the receiver that row's
      content as sent by "u" in "x|y"; alone the frame is rejected. */
  lemma BarredFrameShowsForeignRow(db: Db, m: Msg)
    requires m.kind == Single && m.id == NoId && m.convId == "x|y" && m.fromUid == "u" && m.cliId == "c"
    requires var id := Named(IdName("x", "y", "u|c"));
      id in db.messages && db.messages[id].convId == "x" && db.messages[id].fromUid == "y"
    requires "x|y" !in db.convs
    ensures var b, row := HandleBatch(db, [m]), db.messages[Named(IdName("x", "y", "u|c"))];
      && b.status == BatchStatus.Done && |b.pushes| == 1
      && b.pushes[0].convId == "x|y" && b.pushes[0].fromUid == "u" && b.pushes[0].toUid == m.toUid
      && b.pushes[0].content == row.content && !PushOfRow(b.db, b.pushes[0])
    ensures Handle(db, m).status == Poison && Handle(db, m).pushes == []
  {
    IdNameCollides();
    hide IdName, HandleBatch, StoreAndPush;
    assert Prepare(db, m) == m.(id := Named(IdName("x", "y", "u|c")));
    BatchOfOne(db, m);
    assert "x|y" != "x";
  }
}
