// The batched path refines the slow path: the main results.
module BatchRefines {
  import opened Chat
  import opened Tables
  import opened PersistSpec
  import opened PersistInvariants
  import opened BatchSpec
  import opened BatchBulk
  import opened BatchRefinement
  import opened BatchTheorem

  // ---------------------------------------------------------------- one more frame

  lemma {:induction false} RestSnoc(db: Db, ms: seq<Msg>, k: nat)
    requires 0 < k <= |ms|
    ensures Rest(db, ms[..k]) ==
      if IsEarly(db, ms[k - 1]) then Rest(db, ms[..k - 1])
      else Rest(db, ms[..k - 1]) + [Prepare(db, ms[k - 1])]
  {
    assert ms[..k][..k - 1] == ms[..k - 1];
  }

  /** The frames of the batch that will get a new row. */
  function News(db: Db, e: Db, ms: seq<Msg>): seq<Msg> {
    Unknown(e, Firsts(Rest(db, ms)))
  }

  lemma {:induction false} NewsSnoc(db: Db, e: Db, ms: seq<Msg>, k: nat)
    requires 0 < k <= |ms|
    ensures var p, before := Prepare(db, ms[k - 1]), News(db, e, ms[..k - 1]);
      News(db, e, ms[..k]) ==
      if IsEarly(db, ms[k - 1]) || p.id in Ids(Rest(db, ms[..k - 1])) || p.id in e.messages then before
      else before + [p]
  {
    RestSnoc(db, ms, k);
    var p := Prepare(db, ms[k - 1]);
    FirstsSnoc(Rest(db, ms[..k - 1]), p);
    UnknownSnoc(e, Firsts(Rest(db, ms[..k - 1])), p);
  }

  lemma {:induction false} NewsGrow(db: Db, e: Db, ms: seq<Msg>, k: nat, n: nat, p: Msg)
    requires k <= n <= |ms| && p in News(db, e, ms[..k])
    ensures p in News(db, e, ms[..n])
  {
    hide News;
    if k < n {
      NewsGrow(db, e, ms, k, n - 1, p);
      NewsSnoc(db, e, ms, n);
    }
  }

  // ---------------------------------------------------------------- the frames that passed

  /** Every frame that gets a row would have passed the checks of the slow path. */
  ghost predicate NewsPass(db: Db, e: Db, ms: seq<Msg>) {
    forall m :: m in ms && !IsEarly(db, m) && Prepare(db, m) in News(db, e, ms) ==> Passes(db, m)
  }

  lemma {:induction false} LateIsBulk(db: Db, ms: seq<Msg>, e: Db, k: nat)
    requires Ready(db, ms) && NoneStuck(db, ms) && k <= |ms| && e == RunEarly(db, ms).db
    requires NewsPass(db, e, ms)
    ensures Fold(e, LateOnes(db, ms[..k])) == AppendEach(e, News(db, e, ms[..k]))
    ensures AppendEach(e, News(db, e, ms[..k])).messages.Keys == e.messages.Keys + Ids(Rest(db, ms[..k]))
  {
    if k == 0 {
      NoNews(db, e, ms[..0]);
    } else {
      hide *;
      LateIsBulk(db, ms, e, k - 1);
      LateStep(db, ms, e, k, AppendEach(e, News(db, e, ms[..k - 1])));
    }
  }

  lemma {:induction false} NoNews(db: Db, e: Db, none: seq<Msg>)
    requires none == []
    ensures Fold(e, LateOnes(db, none)) == e == AppendEach(e, News(db, e, none))
    ensures Ids(Rest(db, none)) == {}
  {
  }

  lemma {:induction false} LateHandled(db: Db, ms: seq<Msg>, e: Db, k: nat)
    requires Ready(db, ms) && NoneStuck(db, ms) && 0 < k <= |ms| && e == RunEarly(db, ms).db
    ensures Fold(e, LateOnes(db, ms[..k])) ==
      var x, m := Fold(e, LateOnes(db, ms[..k - 1])), ms[k - 1];
      if IsEarly(db, m) then x else RestStep(x, Prepare(db, m), Passes(db, m))
  {
    hide SeqInv, SingleInv, Handle, HandleAll, RunEarly, FreshDraws, Within, Fold;
    var m := ms[k - 1];
    var late := LateOnes(db, ms[..k - 1]);
    PrefixSnoc(db, ms, k);
    if !IsEarly(db, m) {
      assert ms[..|ms|] == ms;
      RunEarlyIsFold(db, ms, |ms|);
      EarlyKeepGood(db, ms, |ms|);
      LateOnesAreLate(db, ms[..k - 1]);
      LateKeepsGood(db, e, ms, |ms|, late);
      RestHandled(db, Fold(e, late), ms, |ms|, m);
      FoldSnoc(e, late, m);
    }
  }

  lemma {:induction false} LateStep(db: Db, ms: seq<Msg>, e: Db, k: nat, x: Db)
    requires Ready(db, ms) && NoneStuck(db, ms) && 0 < k <= |ms| && e == RunEarly(db, ms).db
    requires NewsPass(db, e, ms)
    requires x == Fold(e, LateOnes(db, ms[..k - 1])) == AppendEach(e, News(db, e, ms[..k - 1]))
    requires x.messages.Keys == e.messages.Keys + Ids(Rest(db, ms[..k - 1]))
    ensures Fold(e, LateOnes(db, ms[..k])) == AppendEach(e, News(db, e, ms[..k]))
    ensures AppendEach(e, News(db, e, ms[..k])).messages.Keys == e.messages.Keys + Ids(Rest(db, ms[..k]))
  {
    hide Ready, NoneStuck, RunEarly, News, Rest, Fold, Ids, LateOnes, AppendEach, Prepare, IsEarly, Passes, Append;
    var m, p := ms[k - 1], Prepare(db, ms[k - 1]);
    LateHandled(db, ms, e, k);
    RestSnoc(db, ms, k);
    NewsSnoc(db, e, ms, k);
    FirstsSnoc(Rest(db, ms[..k - 1]), p);
    UnknownSnoc(e, News(db, e, ms[..k - 1]), p);
    AppendAddsKey(x, p);
    if !IsEarly(db, m) && p.id !in x.messages {
      NewsGrow(db, e, ms, k, |ms|, p);
      assert ms[..|ms|] == ms;
    }
  }

  // ---------------------------------------------------------------- what the guards establish

  lemma {:induction false} EarlyFacts(db: Db, ms: seq<Msg>)
    requires Ready(db, ms) && NoneStuck(db, ms)
    ensures var e := RunEarly(db, ms);
      && !e.failed && Inv(e.db) && Grows(db, e.db) && Within(db, e.db, Draws(ms))
      && e.db == Fold(db, EarlyOnes(db, ms))
  {
    hide SeqInv, SingleInv, Handle, HandleAll, RunEarly, FreshDraws, Fold;
    assert ms[..|ms|] == ms;
    RunEarlyIsFold(db, ms, |ms|);
    EarlyKeepGood(db, ms, |ms|);
    FoldGrows(db, EarlyOnes(db, ms));
  }

  lemma {:induction false} FoldGrows(db: Db, ms: seq<Msg>)
    ensures Grows(db, Fold(db, ms))
  {
    hide Handle;
    if ms != [] {
      var k := |ms| - 1;
      FoldGrows(db, ms[..k]);
      HandleGrows(Fold(db, ms[..k]), ms[k]);
      GrowsTransitive(db, Fold(db, ms[..k]), Fold(db, ms));
    }
  }

  lemma {:induction false} PassedGuards(db: Db, ms: seq<Msg>, m: Msg, e: Db)
    requires Ready(db, ms) && NoneStuck(db, ms) && SendersBelong(db, ms) && e == RunEarly(db, ms).db
    requires m in ms && !IsEarly(db, m) && Prepare(db, m) in News(db, e, ms)
    requires UsersExist(e, News(db, e, ms)) && ConvsExist(e, News(db, e, ms))
    ensures Passes(db, m)
  {
    hide SeqInv, SingleInv, Handle, HandleAll, RunEarly, Fold;
    EarlyFacts(db, ms);
    var p := Prepare(db, m);
    UnknownAreNew(e, Firsts(Rest(db, ms)));
    assert p.fromUid in e.users && p.toUid in e.users && p.convId in e.convs;
    if m.convId != "" {
      assert m.convId !in Draws(ms);
    }
  }

  lemma {:induction false} DoneRefines(db: Db, ms: seq<Msg>)
    requires Ready(db, ms) && NoneStuck(db, ms) && SendersBelong(db, ms)
    requires HandleBatch(db, ms).status == Done
    ensures HandleBatch(db, ms).db == Fold(db, ms)
  {
    hide SeqInv, SingleInv, Handle, HandleAll, RunEarly, Ready, NoneStuck, SendersBelong, Fold, Passes, IsEarly;
    var e := RunEarly(db, ms).db;
    forall m | m in ms && !IsEarly(db, m) && Prepare(db, m) in News(db, e, ms)
      ensures Passes(db, m)
    {
      PassedGuards(db, ms, m, e);
    }
    LateIsBulk(db, ms, e, |ms|);
    EarlyFirst(db, ms, |ms|);
    EarlyFacts(db, ms);
    assert ms[..|ms|] == ms;
  }

  // ---------------------------------------------------------------- the unchecked sender

  lemma SameIdSameSender(a: Msg, b: Msg)
    requires a.id == DeriveId(a) && b.id == DeriveId(b)
    requires '|' !in a.convId && '|' !in a.fromUid && '|' !in b.convId && '|' !in b.fromUid
    ensures a.id == b.id ==> (a.convId == b.convId && a.fromUid == b.fromUid) || a.draw == b.draw
  {
    IdNameInjective(a.convId, a.fromUid, a.cliId, b.convId, b.fromUid, b.cliId);
  }

  /** A frame sent by a stranger to the conversation it names. */
  predicate Stranger(db: Db, m: Msg) {
    m.convId != "" && m.convId in db.convs && AssignId(m).id !in db.messages && (m.convId, m.fromUid) !in db.convMembers
  }

  lemma OthersDoNotPass(db: Db, ms: seq<Msg>, m: Msg, r: Msg)
    requires Ready(db, ms) && m in ms && Stranger(db, m) && r in ms && !IsEarly(db, r)
    requires Prepare(db, r).id == AssignId(m).id
    ensures !Passes(db, r)
  {
    hide SeqInv;
    var p := Prepare(db, r);
    if Passes(db, r) {
      SameIdSameSender(p, AssignId(m));
    }
  }

  lemma EarlyMissesId(db: Db, d: Db, ms: seq<Msg>, m: Msg, r: Msg)
    requires Ready(db, ms) && m in ms && Stranger(db, m) && r in ms && IsEarly(db, r)
    requires Within(db, d, Draws(ms)) && '|' !in EarlyConv(d, r) && AssignId(m).id !in d.messages
    ensures AssignId(m).id !in EarlyStep(d, r).messages
  {
    hide SeqInv, SingleInv, Within;
    EarlyConvIsDrawn(db, d, ms, r);
    SameIdSameSender(AssignId(m), EarlyPassed(r, EarlyConv(d, r)));
  }

  lemma StrangerStep(db: Db, ms: seq<Msg>, m: Msg, d: Db, k: nat)
    requires Ready(db, ms) && m in ms && Stranger(db, m) && k < |ms|
    requires Good(db, d, ms, k) && AssignId(m).id !in d.messages
    ensures AssignId(m).id !in Handle(d, ms[k]).db.messages
  {
    hide SeqInv, SingleInv, Handle, FreshDraws, Stranger;
    var r := ms[k];
    if IsEarly(db, r) {
      EarlyHandled(d, r);
      EarlyConvIsClean(d, r);
      EarlyMissesId(db, d, ms, m, r);
    } else {
      hide Within;
      RestHandled(db, d, ms, k, r);
      if Prepare(db, r).id == AssignId(m).id {
        OthersDoNotPass(db, ms, m, r);
      }
    }
  }

  lemma {:induction false} StrangerNeverStored(db: Db, ms: seq<Msg>, m: Msg, k: nat)
    requires Ready(db, ms) && m in ms && Stranger(db, m) && k <= |ms|
    ensures AssignId(m).id !in Fold(db, ms[..k]).messages
  {
    hide SeqInv, SingleInv, Handle, FreshDraws, Ready, Good;
    if k > 0 {
      StrangerNeverStored(db, ms, m, k - 1);
      PrefixSnoc(db, ms, k);
      FoldKeepsGood(db, ms, k - 1);
      StrangerStep(db, ms, m, Fold(db, ms[..k - 1]), k - 1);
    }
  }

  lemma EarlyConvIsClean(d: Db, m: Msg)
    requires SingleInv(d) && Unused(d, m.newConv)
    ensures '|' !in EarlyConv(d, m)
  {
  }

  lemma {:induction false} RestHasAll(db: Db, ms: seq<Msg>)
    ensures forall m :: m in ms && !IsEarly(db, m) ==> Prepare(db, m) in Rest(db, ms)
  {
    if ms != [] {
      RestHasAll(db, ms[..|ms| - 1]);
      assert ms == ms[..|ms| - 1] + [ms[|ms| - 1]];
    }
  }

  /** The batch stores every frame it keeps, whoever sent it. */
  lemma DoneStores(db: Db, ms: seq<Msg>, m: Msg)
    requires HandleBatch(db, ms).status == Done && m in ms && !IsEarly(db, m)
    ensures Prepare(db, m).id in HandleBatch(db, ms).db.messages
  {
    hide RunEarly, Handle, Rest, Firsts, Unknown;
    var e, p := RunEarly(db, ms).db, Prepare(db, m);
    var kept := Firsts(Rest(db, ms));
    RestHasAll(db, ms);
    FirstsCover(Rest(db, ms));
    assert p.id in Ids(kept);
    var q :| q in kept && q.id == p.id;
    UnknownAreNew(e, kept);
    AppendEachIsBulk(e, Unknown(e, kept));
    AddRowsKeys(e, Unknown(e, kept), |Unknown(e, kept)|);
    var news := Unknown(e, kept);
    assert news[..|news|] == news;
  }

  // ---------------------------------------------------------------- the theorem

  lemma {:induction false} FallbackRefines(db: Db, ms: seq<Msg>)
    requires Ready(db, ms) && NoneStuck(db, ms) && HandleBatch(db, ms).status == Fallback
    ensures var b := HandleBatch(db, ms);
      HandleAll(b.db, b.msgs).db == Fold(db, ms) && !HandleAll(b.db, b.msgs).failed
  {
    hide SeqInv, SingleInv, Handle, HandleAll, RunEarly, Ready, NoneStuck, Fold;
    var e := RunEarly(db, ms);
    assert e.msgs[..|ms|] == e.msgs && ms[..|ms|] == ms;
    AgainIsLate(db, ms, e, |ms|);
    EarlyFirst(db, ms, |ms|);
    EarlyFacts(db, ms);
  }

  lemma BatchNeverFails(db: Db, ms: seq<Msg>)
    requires Ready(db, ms) && NoneStuck(db, ms)
    ensures HandleBatch(db, ms).status != Failed
  {
    hide SeqInv, SingleInv, Handle, RunEarly, Ready, NoneStuck;
    EarlyFacts(db, ms);
    NumbersAreFree(RunEarly(db, ms).db, Unknown(RunEarly(db, ms).db, Firsts(Rest(db, ms))));
  }

  /** Over any tables that satisfy the invariants, a batch of single-chat frames none of which is
      stuck never fails. When it gives up, taking the slow path with the frames as it left them ends
      in the tables of the slow path taken from the start. When it goes through, it ends in those
      tables if and only if every frame that names an existing conversation and is not stored yet comes
      from a member of that conversation. */
  lemma {:induction false} BatchRefinesSlowPath(db: Db, ms: seq<Msg>)
    requires Ready(db, ms) && NoneStuck(db, ms)
    ensures var b, slow := HandleBatch(db, ms), HandleAll(db, ms);
      && !slow.failed
      && b.status != Failed
      && (b.status == Fallback ==>
            HandleAll(b.db, b.msgs).db == slow.db && !HandleAll(b.db, b.msgs).failed)
      && (b.status == Done ==> (b.db == slow.db <==> SendersBelong(db, ms)))
  {
    hide SeqInv, SingleInv, Handle, HandleAll, RunEarly, Ready, NoneStuck, Fold, HandleBatch;
    assert ms[..|ms|] == ms;
    SlowPathIsFold(db, ms, |ms|);
    BatchNeverFails(db, ms);
    var b := HandleBatch(db, ms);
    if b.status == Fallback {
      FallbackRefines(db, ms);
    }
    if b.status == Done {
      if SendersBelong(db, ms) {
        DoneRefines(db, ms);
      } else {
        var m :| m in ms && Stranger(db, m);
        StrangerNeverStored(db, ms, m, |ms|);
        DoneStores(db, ms, m);
      }
    }
  }

  lemma {:induction false} RestComesFrom(db: Db, ms: seq<Msg>)
    ensures forall p :: p in Rest(db, ms) ==> exists m :: m in ms && !IsEarly(db, m) && p == Prepare(db, m)
  {
    if ms != [] {
      RestComesFrom(db, ms[..|ms| - 1]);
    }
  }

  lemma PreparedExists(db: Db, e: Db, m: Msg)
    requires Inv(db) && Grows(db, e) && !IsEarly(db, m)
    requires m.fromUid in db.users && m.toUid in db.users && (m.convId == "" || m.convId in db.convs)
    ensures var p := Prepare(db, m); p.fromUid in e.users && p.toUid in e.users && p.convId in e.convs
  {
    hide SeqInv;
  }

  /** The batch goes through whenever both users and the named conversation of every frame exist. */
  lemma BatchGoesThrough(db: Db, ms: seq<Msg>)
    requires Ready(db, ms) && NoneStuck(db, ms)
    requires forall m :: m in ms ==>
      m.fromUid in db.users && m.toUid in db.users && (m.convId == "" || m.convId in db.convs)
    ensures HandleBatch(db, ms).status == Done
  {
    hide SeqInv, SingleInv, Handle, RunEarly, Rest, Firsts, Unknown, FreshDraws, NoneStuck, Prepare, Grows, Within;
    BatchNeverFails(db, ms);
    EarlyFacts(db, ms);
    var e := RunEarly(db, ms).db;
    var kept := Firsts(Rest(db, ms));
    FirstsCover(Rest(db, ms));
    UnknownAreNew(e, kept);
    RestComesFrom(db, ms);
    forall p | p in Unknown(e, kept)
      ensures p.fromUid in e.users && p.toUid in e.users && p.convId in e.convs
    {
      var m :| m in ms && !IsEarly(db, m) && p == Prepare(db, m);
      PreparedExists(db, e, m);
    }
  }

  // ---------------------------------------------------------------- a stranger's frame

  const CHATROOM := Db(
    {"a", "b", "c"}, map[], map["x" := Conversation(false, ["a", "b"], 0)],
    map[], {("x", "a"), ("x", "b")}, map[], map[], map[], map[])

  const CAROLS := Msg(NoId, "1", "x", "c", "a", Single, "hi", [], false, "y", 0)

  lemma CarolsFrameIsReady()
    ensures Ready(CHATROOM, [CAROLS]) && NoneStuck(CHATROOM, [CAROLS])
    ensures CAROLS in [CAROLS] && Stranger(CHATROOM, CAROLS)
  {
  }

  /** The unchecked sender at work: "c", who is no member, writes into the conversation of "a" and
      "b". The slow path rejects the frame as poison and changes nothing; the batch stores it. */
  lemma BatchAdmitsStranger()
    ensures Handle(CHATROOM, CAROLS).status == Poison
    ensures HandleBatch(CHATROOM, [CAROLS]).status == Done
    ensures HandleBatch(CHATROOM, [CAROLS]).db != HandleAll(CHATROOM, [CAROLS]).db
  {
    hide Ready, NoneStuck, HandleBatch, HandleAll;
    CarolsFrameIsReady();
    BatchGoesThrough(CHATROOM, [CAROLS]);
    BatchRefinesSlowPath(CHATROOM, [CAROLS]);
  }
}
