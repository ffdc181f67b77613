// The order of the single-chat frames of one turn, on the batched path and on the slow one: in each
// conversation the new messages are numbered and pushed in the order of the log.
module SingleOrder {
  import opened Wrappers
  import opened Chat
  import opened Tables
  import opened PersistSpec
  import opened PersistInvariants
  import opened BatchSpec
  import opened BatchBulk
  import opened BatchRefinement
  import opened BatchTheorem
  import opened BatchRefines
  import opened ChatRuns
  import opened Delivered
  import opened TurnOrder

  // ---------------------------------------------------------------- the claim

  /** The row of a frame holds what the frame says. */
  predicate RowHolds(d: Db, x: Msg) {
    x.id in d.messages
    && d.messages[x.id] == Row(x.convId, d.messages[x.id].seqNo, x.fromUid, x.kind, x.content)
  }

  /** The frame's push, with the number of its row, is the s-th. */
  predicate PushedAt(d: Db, pushes: seq<Push>, s: nat, x: Msg) {
    && s < |pushes| && x.id in d.messages
    && pushes[s] == Push(x.id, x.cliId, x.convId, d.messages[x.id].seqNo, x.fromUid, x.toUid, x.kind, x.content, false)
  }

  /** The earlier of two messages has the smaller number, and its push stands before the other's. */
  ghost predicate InOrder(d: Db, pushes: seq<Push>, x: Msg, y: Msg) {
    && RowHolds(d, x) && RowHolds(d, y)
    && d.messages[x.id].seqNo < d.messages[y.id].seqNo
    && exists s: nat, t: nat :: s < t && PushedAt(d, pushes, s, x) && PushedAt(d, pushes, t, y)
  }

  lemma InOrderStays(a: Db, b: Db, front: seq<Push>, pushes: seq<Push>, back: seq<Push>, x: Msg, y: Msg)
    requires InOrder(a, pushes, x, y) && Grows(a, b)
    ensures InOrder(b, front + pushes + back, x, y)
  {
    var s: nat, t: nat :| s < t && PushedAt(a, pushes, s, x) && PushedAt(a, pushes, t, y);
    assert PushedAt(b, front + pushes + back, |front| + s, x) && PushedAt(b, front + pushes + back, |front| + t, y);
  }

  /** One frame handled as new, by one transaction with one push. */
  ghost predicate StoredAlone(a: Db, h: Handled, x: Msg) {
    StoredNext(a, h.db, x) && h.pushes == [PushFor(x, h.db.messages[x.id].seqNo, x.toUid, false)]
  }

  lemma StoredHolds(a: Db, b: Db, d: Db, x: Msg)
    requires StoredNext(a, b, x) && Onward(b, d)
    ensures RowHolds(d, x) && d.messages[x.id] == b.messages[x.id]
  {
  }

  lemma PairInOrder(a: Db, h: Handled, b: Db, g: Handled, d: Db, pushes: seq<Push>, x: Msg, y: Msg)
    requires StoredAlone(a, h, x) && StoredAlone(b, g, y) && Onward(h.db, b) && Onward(g.db, d)
    requires x.convId == y.convId && PushedBefore(pushes, h.pushes, g.pushes) && Onward(b, g.db)
    ensures InOrder(d, pushes, x, y)
  {
    hide Fanout, RowHolds;
    var s: nat, t: nat :| s + |h.pushes| <= t && StandsAt(pushes, s, h.pushes) && StandsAt(pushes, t, g.pushes);
    assert RowHolds(d, x) && RowHolds(d, y) by { StoredHolds(a, h.db, d, x); StoredHolds(b, g.db, d, y); }
    assert pushes[s] == pushes[s..s + 1][0] && pushes[t] == pushes[t..t + 1][0];
    assert PushedAt(d, pushes, s, x) && PushedAt(d, pushes, t, y);
  }

  lemma StoreAlone(d: Db, m: Msg)
    requires m.kind == Single && StoreAndPush(d, m, []).status != Fault && AssignId(m).id !in d.messages
    ensures StoredAlone(d, StoreAndPush(d, m, []), AssignId(m))
  {
    hide Numbered, DeriveId;
  }

  lemma SingleIsStored(db: Db, m: Msg, d: Db, m1: Msg)
    requires m.kind == Single && ValidateSingle(db, m) == Pass(d, m1)
    ensures Handle(db, m) == StoreAndPush(d, m1, []) && m1.kind == Single
  {
    hide StoreAndPush, EnsureSingle;
  }

  lemma SingleStored(db: Db, m: Msg, d: Db, m1: Msg)
    requires m.kind == Single && ValidateSingle(db, m) == Pass(d, m1) && Handle(db, m).status != Fault
    requires AssignId(m1).id !in db.messages && d.messages == db.messages && d.counters == db.counters
    ensures StoredAlone(db, Handle(db, m), AssignId(m1))
  {
    hide Handle, StoreAndPush, ValidateSingle, AssignId;
    SingleIsStored(db, m, d, m1);
    StoreAlone(d, m1);
  }

  // ---------------------------------------------------------------- whose id is new

  /** The frame is new: what will be its id, in the tables the turn ends with, is not stored before and
      not the id of an earlier frame. */
  predicate FirstOfId(db: Db, d: Db, ms: seq<Msg>, i: nat)
    requires i < |ms|
  {
    && Prepare(d, ms[i]).id !in db.messages
    && forall k :: 0 <= k < i ==> Prepare(d, ms[k]).id != Prepare(d, ms[i]).id
  }

  lemma SingleAddsOwn(a: Db, m: Msg, d: Db)
    requires m.kind == Single && Grows(Handle(a, m).db, d)
    ensures Handle(a, m).db.messages.Keys <= a.messages.Keys + {Prepare(d, m).id}
  {
    var h := Handle(a, m);
    HandleAddsOwnRow(a, m);
    if m.convId == "" && h.db.messages.Keys != a.messages.Keys {
      hide StoreAndPush;
      KeyIsKnown(a, m);
      assert ResolveOne(h.db, m) == ResolveOne(d, m);
    }
  }

  lemma KeyIsKnown(a: Db, m: Msg)
    requires m.kind == Single && m.convId == ""
    ensures Handle(a, m).db.messages.Keys == a.messages.Keys || SingleKey(m.fromUid, m.toUid) in Handle(a, m).db.singles
  {
    hide StoreAndPush, SingleKey;
    match ValidateSingle(a, m)
    case Pass(e, m1) => StoreAddsOwnRow(e, m1, []);
    case _ =>
  }

  lemma {:induction false} SinglesMiss(db: Db, ms: seq<Msg>, d: Db, id: Id)
    requires Grows(HandleAll(db, ms).db, d) && id !in db.messages
    requires forall m :: m in ms ==> m.kind == Single && Prepare(d, m).id != id
    ensures id !in HandleAll(db, ms).db.messages
  {
    if ms != [] {
      hide Handle, Prepare, Grows;
      var k := |ms| - 1;
      var before := HandleAll(db, ms[..k]);
      assert ms[..|ms|] == ms;
      AllMoveOn(db, ms, k, |ms|);
      GrowsTransitive(before.db, HandleAll(db, ms).db, d);
      SinglesMiss(db, ms[..k], d, id);
      if !before.failed {
        SingleAddsOwn(before.db, ms[k], d);
      }
    }
  }

  // ---------------------------------------------------------------- early frames

  lemma {:induction false} EarlyIsSlow(db: Db, ms: seq<Msg>)
    ensures var e, r := RunEarly(db, ms), HandleAll(db, EarlyOnes(db, ms));
      e.db == r.db && e.pushes == r.pushes && e.failed == r.failed
  {
    hide *;
    assert ms[..|ms|] == ms;
    if ms == [] {
      NoFrames(db, ms);
      NoneHandled(db);
    } else {
      var k := |ms| - 1;
      EarlyIsSlow(db, ms[..k]);
      PrefixSnoc(db, ms, k + 1);
      RunEarlyMore(db, ms, k);
      HandleAllSnoc(db, EarlyOnes(db, ms[..k]), ms[k]);
    }
  }

  lemma {:induction false} HandleAllSnoc(db: Db, ms: seq<Msg>, m: Msg)
    ensures var r := HandleAll(db, ms);
      HandleAll(db, ms + [m]) == if r.failed then r
                                 else var h := Handle(r.db, m); Ran(h.db, r.pushes + h.pushes, h.status == Fault)
  {
    hide *;
    assert (ms + [m])[..|ms|] == ms && (ms + [m])[..|ms| + 1] == ms + [m];
    HandleAllMore(db, ms + [m], |ms|);
  }

  lemma {:induction false} EarlyPrefix(db: Db, ms: seq<Msg>, i: nat, n: nat)
    requires i < n <= |ms| && IsEarly(db, ms[i])
    ensures EarlyOnes(db, ms[..i]) + [ms[i]] <= EarlyOnes(db, ms[..n])
  {
    hide *;
    PrefixSnoc(db, ms, n);
    if i < n - 1 {
      EarlyPrefix(db, ms, i, n - 1);
    }
  }

  lemma {:induction false} EarlyComeFrom(db: Db, ms: seq<Msg>, k: nat)
    requires k <= |ms|
    ensures forall m :: m in EarlyOnes(db, ms[..k]) ==> exists i :: 0 <= i < k && ms[i] == m
  {
    hide IsEarly;
    if k > 0 {
      EarlyComeFrom(db, ms, k - 1);
      PrefixSnoc(db, ms, k);
    }
  }

  lemma OpenedTables(at: Db, m: Msg)
    ensures var d := WithConv(at, m);
      && d.messages == at.messages && d.counters == at.counters
      && SingleKey(m.fromUid, m.toUid) in d.singles && d.singles[SingleKey(m.fromUid, m.toUid)] == EarlyConv(at, m)
    ensures m.(convId := EarlyConv(at, m)).kind == m.kind && EarlyPassed(m, EarlyConv(at, m)).convId == EarlyConv(at, m)
  {
    hide SingleKey;
  }

  lemma EarlyChecked(db: Db, at: Db, ms: seq<Msg>, i: nat)
    requires Good(db, at, ms, i) && i < |ms| && IsEarly(db, ms[i]) && Passes(db, ms[i]) && !Stuck(db, ms[i])
    ensures Handle(at, ms[i]).status != Fault && ms[i].kind == Single
    ensures ValidateSingle(at, ms[i]) == Pass(WithConv(at, ms[i]), ms[i].(convId := EarlyConv(at, ms[i])))
  {
    hide SeqInv, SingleInv, Handle, ValidateSingle, WithConv, EarlyConv, SingleKey;
    EarlyHandled(at, ms[i]);
    EarlyOpened(at, ms[i]);
  }

  lemma EarlyStored(db: Db, at: Db, ms: seq<Msg>, i: nat)
    requires Good(db, at, ms, i) && i < |ms| && IsEarly(db, ms[i]) && Passes(db, ms[i]) && !Stuck(db, ms[i])
    ensures var h, x := Handle(at, ms[i]), EarlyPassed(ms[i], EarlyConv(at, ms[i]));
      && h.status != Fault
      && SingleKey(ms[i].fromUid, ms[i].toUid) in h.db.singles
      && h.db.singles[SingleKey(ms[i].fromUid, ms[i].toUid)] == x.convId
      && (x.id !in at.messages ==> StoredAlone(at, h, x))
  {
    hide Handle, StoreAndPush, SingleKey, ValidateSingle, WithConv, EarlyConv, Good, IsEarly, Passes, Stuck,
         StoredAlone, AssignId;
    var m := ms[i];
    var m1 := m.(convId := EarlyConv(at, m));
    EarlyChecked(db, at, ms, i);
    OpenedTables(at, m);
    SingleIsStored(at, m, WithConv(at, m), m1);
    StoreAddsOwnRow(WithConv(at, m), m1, []);
    if AssignId(m1).id !in at.messages {
      SingleStored(at, m, WithConv(at, m), m1);
    }
  }

  /** What an early frame is stored as. */
  lemma EarlyPlace(db: Db, ms: seq<Msg>, d: Db, i: nat) returns (k: nat, at: Db, h: Handled)
    requires Ready(db, ms) && NoneStuck(db, ms) && i < |ms| && IsEarly(db, ms[i]) && Passes(db, ms[i])
    requires Grows(RunEarly(db, ms).db, d) && FirstOfId(db, d, ms, i)
    ensures k == |EarlyOnes(db, ms[..i])| < |EarlyOnes(db, ms)| && EarlyOnes(db, ms)[k] == ms[i]
    ensures at == HandleAll(db, EarlyOnes(db, ms)[..k]).db && h == Handle(at, ms[i])
    ensures StoredAlone(at, h, Prepare(d, ms[i])) && Prepare(d, ms[i]).convId in Draws(ms)
  {
    hide SeqInv, SingleInv, Handle, HandleAll, RunEarly, FreshDraws, Fold, Ready, NoneStuck, IsEarly, Grows,
         StoredAlone, Prepare, Good;
    hide Passes, EarlyOnes, FirstOfId, SingleKey, EarlyConv, EarlyPassed, Onward;
    var all := EarlyOnes(db, ms);
    assert ms[..|ms|] == ms;
    EarlyPrefix(db, ms, i, |ms|);
    k := |EarlyOnes(db, ms[..i])|;
    assert all[..k] == EarlyOnes(db, ms[..i]);
    RunEarlyIsFold(db, ms, i);
    EarlyIsSlow(db, ms[..i]);
    EarlyIsSlow(db, ms);
    RunEarlyIsFold(db, ms, |ms|);
    EarlyKeepGood(db, ms, i);
    NotStuck(db, ms, i);
    at := HandleAll(db, all[..k]).db;
    h := Handle(at, ms[i]);
    EarlyStored(db, at, ms, i);
    HandledAt(db, all, k);
    var x := EarlyPassed(ms[i], EarlyConv(at, ms[i]));
    OnwardGrows(h.db, RunEarly(db, ms).db);
    OnwardGrows(at, h.db);
    GrowsTransitive(h.db, RunEarly(db, ms).db, d);
    GrowsTransitive(at, h.db, d);
    EarlyIsPrepared(h.db, d, ms[i], at, db);
    EarlyIsDrawn(db, at, ms, i);
    EarlierMiss(db, ms, d, i, at);
  }

  lemma EarlyIsDrawn(db: Db, at: Db, ms: seq<Msg>, i: nat)
    requires Good(db, at, ms, i) && i < |ms| && IsEarly(db, ms[i])
    ensures EarlyPassed(ms[i], EarlyConv(at, ms[i])).convId in Draws(ms)
  {
    hide SeqInv, SingleInv;
    EarlyConvIsDrawn(db, at, ms, ms[i]);
  }

  lemma OnwardGrows(a: Db, b: Db)
    requires Onward(a, b)
    ensures Grows(a, b)
  {
  }

  lemma EarlyIsPrepared(h: Db, d: Db, m: Msg, at: Db, db: Db)
    requires Grows(h, d) && IsEarly(db, m) && SingleKey(m.fromUid, m.toUid) in h.singles
    requires h.singles[SingleKey(m.fromUid, m.toUid)] == EarlyPassed(m, EarlyConv(at, m)).convId
    ensures Prepare(d, m) == EarlyPassed(m, EarlyConv(at, m))
  {
    hide SingleKey;
  }

  lemma {:induction false} EarlierMiss(db: Db, ms: seq<Msg>, d: Db, i: nat, at: Db)
    requires Ready(db, ms) && i < |ms| && at == HandleAll(db, EarlyOnes(db, ms[..i])).db && Grows(at, d)
    requires FirstOfId(db, d, ms, i)
    ensures Prepare(d, ms[i]).id !in at.messages
  {
    hide HandleAll, EarlyOnes, Prepare, Grows, SeqInv, SingleInv, FreshDraws;
    EarlyComeFrom(db, ms, i);
    forall m | m in EarlyOnes(db, ms[..i])
      ensures m.kind == Single && Prepare(d, m).id != Prepare(d, ms[i]).id
    {
      var k :| 0 <= k < i && ms[k] == m;
      assert m in ms && Plain(m);
    }
    SinglesMiss(db, EarlyOnes(db, ms[..i]), d, Prepare(d, ms[i]).id);
  }

  lemma {:induction false} EarlyInOrder(db: Db, ms: seq<Msg>, d: Db, i: nat, j: nat)
    requires Ready(db, ms) && NoneStuck(db, ms) && i < j < |ms|
    requires IsEarly(db, ms[i]) && IsEarly(db, ms[j]) && Passes(db, ms[i]) && Passes(db, ms[j])
    requires Grows(RunEarly(db, ms).db, d) && FirstOfId(db, d, ms, i) && FirstOfId(db, d, ms, j)
    requires Prepare(d, ms[i]).convId == Prepare(d, ms[j]).convId
    ensures InOrder(RunEarly(db, ms).db, RunEarly(db, ms).pushes, Prepare(d, ms[i]), Prepare(d, ms[j]))
  {
    hide *;
    var all := EarlyOnes(db, ms);
    var k, a, h := EarlyPlace(db, ms, d, i);
    var l, b, g := EarlyPlace(db, ms, d, j);
    EarlyPrefix(db, ms, i, j);
    assert ms[..|ms|] == ms;
    RunEarlyIsFold(db, ms, |ms|);
    EarlyIsSlow(db, ms);
    HandledAt(db, all, k);
    HandledAt(db, all, l);
    HandledInOrder(db, all, k, l, [], []);
    assert [] + HandleAll(db, all).pushes + [] == RunEarly(db, ms).pushes;
    PairInOrder(a, h, b, g, RunEarly(db, ms).db, RunEarly(db, ms).pushes, Prepare(d, ms[i]), Prepare(d, ms[j]));
  }

  // ---------------------------------------------------------------- frames of conversations that exist

  /** A frame of a conversation that exists gets the same conversation and id in all later tables. */
  lemma LateIsPrepared(db: Db, d: Db, m: Msg)
    requires SingleInv(db) && Grows(db, d) && m.kind == Single && !IsEarly(db, m)
    ensures Prepare(d, m) == Prepare(db, m)
  {
    hide SingleKey;
  }

  lemma EarlyStepMisses(db: Db, at: Db, ms: seq<Msg>, k: nat, r: Msg)
    requires Good(db, at, ms, k) && k < |ms| && IsEarly(db, ms[k])
    requires r in ms && !IsEarly(db, r) && Passes(db, r) && r.draw != ms[k].draw
    requires Prepare(db, r).id !in at.messages
    ensures Prepare(db, r).id !in Handle(at, ms[k]).db.messages
  {
    hide SeqInv, SingleInv, Within, Handle;
    EarlyHandled(at, ms[k]);
    CommuteFacts(db, at, ms, k, r);
    var p, q := Prepare(db, r), EarlyPassed(ms[k], EarlyConv(at, ms[k]));
    IdNameInjective(p.convId, p.fromUid, p.cliId, q.convId, q.fromUid, q.cliId);
  }

  lemma DrawsDiffer(db: Db, ms: seq<Msg>, i: nat, j: nat)
    requires Ready(db, ms) && i < |ms| && j < |ms| && i != j
    ensures ms[i] in ms && ms[i].draw != ms[j].draw
  {
    hide Inv, CleanConvs, Unused;
  }

  lemma {:induction false} EarlyMiss(db: Db, ms: seq<Msg>, i: nat, k: nat)
    requires Ready(db, ms) && i < |ms| && !IsEarly(db, ms[i]) && Passes(db, ms[i]) && k <= |ms|
    requires Prepare(db, ms[i]).id !in db.messages
    ensures Prepare(db, ms[i]).id !in Fold(db, EarlyOnes(db, ms[..k])).messages
  {
    hide Handle, Prepare, IsEarly, Passes, Good, EarlyOnes, Fold, Ready;
    if k == 0 {
      NoFrames(db, ms);
    } else {
      EarlyMiss(db, ms, i, k - 1);
      PrefixSnoc(db, ms, k);
      if IsEarly(db, ms[k - 1]) {
        EarlyKeepGood(db, ms, k - 1);
        FoldSnoc(db, EarlyOnes(db, ms[..k - 1]), ms[k - 1]);
        DrawsDiffer(db, ms, i, k - 1);
        EarlyStepMisses(db, Fold(db, EarlyOnes(db, ms[..k - 1])), ms, k - 1, ms[i]);
      }
    }
  }

  lemma LateStepMisses(db: Db, at: Db, ms: seq<Msg>, r: Msg, id: Id)
    requires Good(db, at, ms, |ms|) && r in ms && !IsEarly(db, r) && id !in at.messages && Prepare(db, r).id != id
    ensures id !in Handle(at, r).db.messages
  {
    RestHandled(db, at, ms, |ms|, r);
    hide Handle, Good;
  }

  lemma {:induction false} LateMiss(db: Db, ms: seq<Msg>, e: Db, k: nat, id: Id)
    requires Good(db, e, ms, |ms|) && k <= |ms| && id !in e.messages
    requires forall i :: 0 <= i < k && !IsEarly(db, ms[i]) ==> Prepare(db, ms[i]).id != id
    ensures id !in Fold(e, LateOnes(db, ms[..k])).messages
  {
    hide Handle, Prepare, IsEarly, Good, LateOnes, Fold;
    if k == 0 {
      NoLate(db, e, ms);
    } else {
      LateMiss(db, ms, e, k - 1, id);
      PrefixSnoc(db, ms, k);
      if !IsEarly(db, ms[k - 1]) {
        LateOnesAreLate(db, ms[..k - 1]);
        LateKeepsGood(db, e, ms, |ms|, LateOnes(db, ms[..k - 1]));
        FoldSnoc(e, LateOnes(db, ms[..k - 1]), ms[k - 1]);
        LateStepMisses(db, Fold(e, LateOnes(db, ms[..k - 1])), ms, ms[k - 1], id);
      }
    }
  }

  lemma {:induction false} NoLate(db: Db, e: Db, ms: seq<Msg>)
    ensures Fold(e, LateOnes(db, ms[..0])) == e
  {
  }

  /** What a frame that is not early finds when the early ones are done: its id is not stored. */
  lemma {:induction false} LateIsNew(db: Db, ms: seq<Msg>, d: Db, i: nat)
    requires Ready(db, ms) && NoneStuck(db, ms) && i < |ms| && !IsEarly(db, ms[i]) && Passes(db, ms[i])
    requires Grows(RunEarly(db, ms).db, d) && FirstOfId(db, d, ms, i)
    ensures var e := RunEarly(db, ms).db;
      && Inv(e) && Grows(db, e) && Good(db, e, ms, |ms|)
      && Prepare(d, ms[i]) == Prepare(db, ms[i]) && Prepare(db, ms[i]).id !in e.messages
      && (forall k :: 0 <= k < i && !IsEarly(db, ms[k]) ==> Prepare(db, ms[k]).id != Prepare(db, ms[i]).id)
  {
    hide Handle, HandleAll, RunEarly, Fold, Prepare, IsEarly, Passes, Grows, SeqInv, Good, NoneStuck, SingleInv,
         EarlyOnes;
    assert ms[..|ms|] == ms;
    BatchRefines.EarlyFacts(db, ms);
    RunEarlyIsFold(db, ms, |ms|);
    EarlyKeepGood(db, ms, |ms|);
    GrowsTransitive(db, RunEarly(db, ms).db, d);
    forall k | 0 <= k < |ms| && !IsEarly(db, ms[k])
      ensures Prepare(d, ms[k]) == Prepare(db, ms[k])
    {
      assert ms[k] in ms && Plain(ms[k]);
      LateIsPrepared(db, d, ms[k]);
    }
    EarlyMiss(db, ms, i, |ms|);
  }

  // ---------------------------------------------------------------- the slow path after a fallback

  /** What such a frame is stored as when the slow path gets to it. */
  lemma LatePlace(db: Db, ms: seq<Msg>, d: Db, i: nat) returns (at: Db, h: Handled)
    requires Ready(db, ms) && NoneStuck(db, ms) && i < |ms| && !IsEarly(db, ms[i]) && Passes(db, ms[i])
    requires Grows(RunEarly(db, ms).db, d) && FirstOfId(db, d, ms, i)
    ensures var e := RunEarly(db, ms);
      at == HandleAll(e.db, e.msgs[..i]).db && h == Handle(at, e.msgs[i])
    ensures StoredAlone(at, h, Prepare(d, ms[i]))
  {
    hide Handle, HandleAll, RunEarly, Fold, Prepare, IsEarly, Passes, Grows, Inv, Good, NoneStuck, LateOnes,
         EarlyOnes, Ready, FirstOfId, StoredAlone;
    var e, x := RunEarly(db, ms), Prepare(db, ms[i]);
    LateIsNew(db, ms, d, i);
    assert ms[..|ms|] == ms;
    AgainIsLate(db, ms, e, i);
    RunEarlyMutates(db, ms, |ms|);
    assert Mutated(db, e.db, ms[i], e.msgs[i]);
    at := HandleAll(e.db, e.msgs[..i]).db;
    h := Handle(at, e.msgs[i]);
    LateMiss(db, ms, e.db, i, x.id);
    LateOnesAreLate(db, ms[..i]);
    LateKeepsGood(db, e.db, ms, |ms|, LateOnes(db, ms[..i]));
    PreparedPasses(db, at, ms, |ms|, ms[i]);
    PreparedHandled(db, at, ms, |ms|, ms[i]);
    PreparedHasId(db, ms[i]);
    ReadyIsSingle(db, ms, i);
    SingleStored(at, x, at, x);
  }

  lemma ReadyIsSingle(db: Db, ms: seq<Msg>, i: nat)
    requires Ready(db, ms) && i < |ms|
    ensures ms[i] in ms && ms[i].kind == Single
  {
    assert Plain(ms[i]);
  }

  lemma PreparedHasId(db: Db, m: Msg)
    ensures AssignId(Prepare(db, m)) == Prepare(db, m) && Prepare(db, m).kind == m.kind
  {
  }

  lemma {:induction false} FallbackInOrder(db: Db, ms: seq<Msg>, d: Db, i: nat, j: nat)
    requires Ready(db, ms) && NoneStuck(db, ms) && i < j < |ms|
    requires !IsEarly(db, ms[i]) && !IsEarly(db, ms[j]) && Passes(db, ms[i]) && Passes(db, ms[j])
    requires Grows(RunEarly(db, ms).db, d) && FirstOfId(db, d, ms, i) && FirstOfId(db, d, ms, j)
    requires Prepare(d, ms[i]).convId == Prepare(d, ms[j]).convId
    ensures var e := RunEarly(db, ms); var r := HandleAll(e.db, e.msgs);
      InOrder(r.db, r.pushes, Prepare(d, ms[i]), Prepare(d, ms[j]))
  {
    hide *;
    var e := RunEarly(db, ms);
    var r := HandleAll(e.db, e.msgs);
    var a, h := LatePlace(db, ms, d, i);
    var b, g := LatePlace(db, ms, d, j);
    assert ms[..|ms|] == ms && e.msgs[..|ms|] == e.msgs;
    AgainIsLate(db, ms, e, |ms|);
    HandledAt(e.db, e.msgs, i);
    HandledAt(e.db, e.msgs, j);
    HandledInOrder(e.db, e.msgs, i, j, [], []);
    assert [] + r.pushes + [] == r.pushes;
    PairInOrder(a, h, b, g, r.db, r.pushes, Prepare(d, ms[i]), Prepare(d, ms[j]));
  }

  // ---------------------------------------------------------------- the bulk transaction

  lemma {:induction false} FreshPushAt(db: Db, ms: seq<Msg>, k: nat, j: nat)
    requires j < k <= |ms|
    ensures |FreshPushes(db, ms, k)| == k
    ensures FreshPushes(db, ms, k)[j] == PushFor(ms[j], NumberOf(db, ms, j), ms[j].toUid, false)
  {
    hide NumberOf;
    if j < k - 1 {
      FreshPushAt(db, ms, k - 1, j);
    } else {
      FreshPushesCount(db, ms, k - 1);
    }
  }

  lemma {:induction false} FreshPushesCount(db: Db, ms: seq<Msg>, k: nat)
    requires k <= |ms|
    ensures |FreshPushes(db, ms, k)| == k
  {
    if k > 0 {
      FreshPushesCount(db, ms, k - 1);
    }
  }

  lemma {:induction false} CountGrows(ms: seq<Msg>, a: nat, b: nat)
    requires a < b <= |ms|
    ensures Count(ms[..a], ms[a].convId) < Count(ms[..b], ms[a].convId)
  {
    assert ms[..b][..b - 1] == ms[..b - 1];
    if a < b - 1 {
      CountGrows(ms, a, b - 1);
    }
  }

  /** Of two new frames of one conversation the bulk transaction gives the earlier the smaller number,
      and pushes it first. */
  lemma {:induction false} BulkInOrder(db: Db, ms: seq<Msg>, a: nat, b: nat, back: seq<Push>)
    requires a < b < |ms| && DistinctIds(ms) && ms[a].convId == ms[b].convId
    ensures InOrder(AppendEach(db, ms), FreshPushes(db, ms, |ms|) + back, ms[a], ms[b])
  {
    hide AppendEach, FreshPushes, Count;
    AppendedRow(db, ms, a);
    AppendedRow(db, ms, b);
    CountGrows(ms, a, b);
    FreshPushAt(db, ms, |ms|, a);
    FreshPushAt(db, ms, |ms|, b);
    assert PushedAt(AppendEach(db, ms), FreshPushes(db, ms, |ms|) + back, a, ms[a]);
    assert PushedAt(AppendEach(db, ms), FreshPushes(db, ms, |ms|) + back, b, ms[b]);
  }

  lemma {:induction false} NewsPrefix(db: Db, e: Db, ms: seq<Msg>, i: nat, n: nat)
    requires i < n <= |ms| && !IsEarly(db, ms[i]) && Prepare(db, ms[i]).id !in e.messages
    requires Prepare(db, ms[i]).id !in Ids(Rest(db, ms[..i]))
    ensures News(db, e, ms[..i]) + [Prepare(db, ms[i])] <= News(db, e, ms[..n])
  {
    hide *;
    NewsSnoc(db, e, ms, n);
    if i < n - 1 {
      NewsPrefix(db, e, ms, i, n - 1);
    }
  }

  lemma {:induction false} RestMisses(db: Db, ms: seq<Msg>, i: nat, id: Id)
    requires i <= |ms| && forall k :: 0 <= k < i && !IsEarly(db, ms[k]) ==> Prepare(db, ms[k]).id != id
    ensures id !in Ids(Rest(db, ms[..i]))
  {
    hide Prepare, IsEarly, Rest;
    RestComesFrom(db, ms[..i]);
  }

  lemma {:induction false} DoneTables(db: Db, ms: seq<Msg>)
    requires HandleBatch(db, ms).status == Done
    ensures var b, e := HandleBatch(db, ms), RunEarly(db, ms);
      var news := News(db, e.db, ms);
      && b.db == AppendEach(e.db, news) && DistinctIds(news)
      && exists back :: b.pushes == e.pushes + (FreshPushes(e.db, news, |news|) + back)
  {
    hide RunEarly, Rest, Firsts, Unknown, Known, AppendEach, UsersExist, ConvsExist, SomeNumberTaken, ReplayPushes;
    var e := RunEarly(db, ms);
    var kept := Firsts(Rest(db, ms));
    NewsAreNew(e.db, Rest(db, ms));
    NothingAppended(e.db);
    KnownAreStored(e.db, kept);
    var news, back := News(db, e.db, ms), ReplayPushes(e.db, Known(e.db, kept));
    assert [] + back == back;
    assert HandleBatch(db, ms).pushes == e.pushes + (FreshPushes(e.db, news, |news|) + back);
  }

  lemma {:induction false} NothingAppended(db: Db)
    ensures AppendEach(db, []) == db && FreshPushes(db, [], 0) == []
  {
  }

  lemma {:induction false} DoneInOrder(db: Db, ms: seq<Msg>, d: Db, i: nat, j: nat)
    requires Ready(db, ms) && NoneStuck(db, ms) && i < j < |ms| && HandleBatch(db, ms).status == Done
    requires !IsEarly(db, ms[i]) && !IsEarly(db, ms[j]) && Passes(db, ms[i]) && Passes(db, ms[j])
    requires Grows(RunEarly(db, ms).db, d) && FirstOfId(db, d, ms, i) && FirstOfId(db, d, ms, j)
    requires Prepare(d, ms[i]).convId == Prepare(d, ms[j]).convId
    ensures InOrder(HandleBatch(db, ms).db, HandleBatch(db, ms).pushes, Prepare(d, ms[i]), Prepare(d, ms[j]))
  {
    hide *;
    var e, x, y := RunEarly(db, ms), Prepare(db, ms[i]), Prepare(db, ms[j]);
    var news := News(db, e.db, ms);
    LateIsNew(db, ms, d, i);
    LateIsNew(db, ms, d, j);
    RestMisses(db, ms, i, x.id);
    RestMisses(db, ms, j, y.id);
    assert ms[..|ms|] == ms;
    NewsPrefix(db, e.db, ms, i, j);
    NewsPrefix(db, e.db, ms, i, |ms|);
    NewsPrefix(db, e.db, ms, j, |ms|);
    var a, b := |News(db, e.db, ms[..i])|, |News(db, e.db, ms[..j])|;
    assert news[a] == x && news[b] == y;
    DoneTables(db, ms);
    var back :| HandleBatch(db, ms).pushes == e.pushes + (FreshPushes(e.db, news, |news|) + back);
    BulkInOrder(e.db, news, a, b, back);
    GrowsReflexive(HandleBatch(db, ms).db);
    var all := FreshPushes(e.db, news, |news|) + back;
    InOrderStays(HandleBatch(db, ms).db, HandleBatch(db, ms).db, e.pushes, all, [], x, y);
    assert e.pushes + all + [] == HandleBatch(db, ms).pushes;
  }

  // ---------------------------------------------------------------- replays

  lemma {:induction false} KnownPrefix(db: Db, ms: seq<Msg>, i: nat, n: nat)
    requires i < n <= |ms| && ms[i].id in db.messages
    ensures Known(db, ms[..i]) + [ms[i]] <= Known(db, ms[..n])
  {
    assert ms[..n][..n - 1] == ms[..n - 1];
    if i < n - 1 {
      KnownPrefix(db, ms, i, n - 1);
    }
  }

  lemma {:induction false} ReplayPushAt(db: Db, ms: seq<Msg>, k: nat)
    requires (forall m :: m in ms ==> m.id in db.messages) && k < |ms|
    ensures |ReplayPushes(db, ms)| == |ms| && ReplayPushes(db, ms)[k] == ReplayPush(db, ms[k])
  {
    hide ReplayPush;
    var n := |ms| - 1;
    if k < n {
      ReplayPushAt(db, ms[..n], k);
    } else {
      ReplayPushesCount(db, ms[..n]);
    }
  }

  lemma {:induction false} ReplayPushesCount(db: Db, ms: seq<Msg>)
    requires forall m :: m in ms ==> m.id in db.messages
    ensures |ReplayPushes(db, ms)| == |ms|
  {
    hide ReplayPush;
    if ms != [] {
      ReplayPushesCount(db, ms[..|ms| - 1]);
    }
  }

  predicate PushedAgainAt(db: Db, pushes: seq<Push>, s: nat, m: Msg) {
    && s < |pushes| && m.id in db.messages
    && var row := db.messages[m.id];
    pushes[s] == Push(m.id, m.cliId, m.convId, row.seqNo, m.fromUid, m.toUid, m.kind, row.content, false)
  }

  /** Of two frames that are found stored, the batch pushes the earlier one first, each with the number
      and the content of its row. */
  lemma ReplaysKeepOrder(db: Db, kept: seq<Msg>, i: nat, j: nat)
    requires i < j < |kept| && kept[i].id in db.messages && kept[j].id in db.messages
    requires FinishBatch(db, kept).status == Done
    ensures var all := FinishBatch(db, kept).pushes;
      exists s: nat, t: nat :: s < t && PushedAgainAt(db, all, s, kept[i]) && PushedAgainAt(db, all, t, kept[j])
  {
    hide Known, ReplayPushes, FreshPushes, AppendEach, UsersExist, ConvsExist, SomeNumberTaken, Unknown;
    assert kept[..|kept|] == kept;
    KnownPrefix(db, kept, i, j);
    KnownPrefix(db, kept, i, |kept|);
    KnownPrefix(db, kept, j, |kept|);
    KnownAreStored(db, kept);
    var replays, news := Known(db, kept), Unknown(db, kept);
    var a, b := |Known(db, kept[..i])|, |Known(db, kept[..j])|;
    assert replays[a] == kept[i] && replays[b] == kept[j];
    ReplayPushAt(db, replays, a);
    ReplayPushAt(db, replays, b);
    var n := if news == [] then 0 else |FreshPushes(db, news, |news|)|;
    assert PushedAgainAt(db, FinishBatch(db, kept).pushes, n + a, kept[i]);
    assert PushedAgainAt(db, FinishBatch(db, kept).pushes, n + b, kept[j]);
  }

  // ---------------------------------------------------------------- both paths together

  lemma {:induction false} LateIsNotDrawn(db: Db, ms: seq<Msg>, d: Db, i: nat)
    requires Ready(db, ms) && NoneStuck(db, ms) && i < |ms| && !IsEarly(db, ms[i]) && Passes(db, ms[i])
    requires Grows(RunEarly(db, ms).db, d) && FirstOfId(db, d, ms, i)
    ensures Prepare(d, ms[i]).convId !in Draws(ms)
  {
    hide *;
    LateIsNew(db, ms, d, i);
    ReadyIsSingle(db, ms, i);
    RestHandled(db, RunEarly(db, ms).db, ms, |ms|, ms[i]);
  }

  lemma {:induction false} OneKind(db: Db, ms: seq<Msg>, d: Db, i: nat, j: nat)
    requires Ready(db, ms) && NoneStuck(db, ms) && i < |ms| && j < |ms|
    requires Passes(db, ms[i]) && Passes(db, ms[j])
    requires Grows(RunEarly(db, ms).db, d) && FirstOfId(db, d, ms, i) && FirstOfId(db, d, ms, j)
    requires Prepare(d, ms[i]).convId == Prepare(d, ms[j]).convId
    ensures IsEarly(db, ms[i]) <==> IsEarly(db, ms[j])
  {
    hide *;
    if IsEarly(db, ms[i]) {
      var k, at, h := EarlyPlace(db, ms, d, i);
    } else {
      LateIsNotDrawn(db, ms, d, i);
    }
    if IsEarly(db, ms[j]) {
      var k, at, h := EarlyPlace(db, ms, d, j);
    } else {
      LateIsNotDrawn(db, ms, d, j);
    }
  }

  /** The tables after the early frames, and those at the end of the single-chat part. */
  lemma {:induction false} SinglesEnd(db: Db, ms: seq<Msg>)
    requires Ready(db, ms) && NoneStuck(db, ms)
    ensures var b, e, r := HandleBatch(db, ms), RunEarly(db, ms), AfterSingles(db, ms);
      && !r.failed && Grows(e.db, r.db) && b.status != Failed
      && (b.status == Done ==> r.db == b.db && r.pushes == b.pushes && exists tail :: b.pushes == e.pushes + tail)
      && (b.status == Fallback ==>
            && r == Ran(HandleAll(e.db, e.msgs).db, e.pushes + HandleAll(e.db, e.msgs).pushes, false))
  {
    hide RunEarly, HandleAll, Ready, NoneStuck, Handle, Rest, Firsts, Unknown, Known, AppendEach, Grows, UsersExist,
         ConvsExist, SomeNumberTaken;
    var b, e := HandleBatch(db, ms), RunEarly(db, ms);
    BatchRefinesSlowPath(db, ms);
    if b.status == Done {
      DoneTables(db, ms);
      AppendedGrows(e.db, News(db, e.db, ms), Rest(db, ms));
    }
    if b.status == Fallback {
      HandleAllGrows(e.db, e.msgs);
      assert e.pushes + [] == e.pushes;
    }
  }

  lemma {:induction false} AppendedGrows(e: Db, news: seq<Msg>, rest: seq<Msg>)
    requires news == Unknown(e, Firsts(rest))
    ensures Grows(e, AppendEach(e, news))
  {
    hide Unknown, Firsts;
    NewsAreNew(e, rest);
    AppendEachIsLater(e, news);
    AppendEachIsBulk(e, news);
    hide AppendEach;
  }

  /** For any batch of single-chat frames none of which is stuck, on the batched path, with its fallback
      to the slow one: of two new frames of one conversation that pass the checks, the earlier gets the
      smaller number and is pushed first. A frame's conversation and id are those it has in the tables
      at the end. */
  lemma SinglesKeepOrder(db: Db, ms: seq<Msg>, i: nat, j: nat)
    requires Ready(db, ms) && NoneStuck(db, ms) && i < j < |ms| && Passes(db, ms[i]) && Passes(db, ms[j])
    requires var d := AfterSingles(db, ms).db;
      FirstOfId(db, d, ms, i) && FirstOfId(db, d, ms, j) && Prepare(d, ms[i]).convId == Prepare(d, ms[j]).convId
    ensures var r := AfterSingles(db, ms);
      !r.failed && InOrder(r.db, r.pushes, Prepare(r.db, ms[i]), Prepare(r.db, ms[j]))
  {
    hide *;
    var r, b, e := AfterSingles(db, ms), HandleBatch(db, ms), RunEarly(db, ms);
    SinglesEnd(db, ms);
    OneKind(db, ms, r.db, i, j);
    var x, y := Prepare(r.db, ms[i]), Prepare(r.db, ms[j]);
    if IsEarly(db, ms[i]) {
      EarlyInOrder(db, ms, r.db, i, j);
      var tail := if b.status == Done then r.pushes[|e.pushes|..] else HandleAll(e.db, e.msgs).pushes;
      InOrderStays(e.db, r.db, [], e.pushes, tail, x, y);
      assert [] + e.pushes + tail == r.pushes;
    } else if b.status == Done {
      DoneInOrder(db, ms, r.db, i, j);
    } else {
      FallbackInOrder(db, ms, r.db, i, j);
      var slow := HandleAll(e.db, e.msgs);
      GrowsReflexive(r.db);
      InOrderStays(slow.db, r.db, e.pushes, slow.pushes, [], x, y);
      assert e.pushes + slow.pushes + [] == r.pushes;
    }
  }

  // ---------------------------------------------------------------- the turn

  /** The frame as the turn stores it. */
  function StoredAs(d: Db, frame: Msg): Msg {
    Prepare(d, frame.(kind := Single))
  }

  /** The frame is new: its id is not stored before the turn and not that of an earlier single-chat
      frame of the batch. */
  predicate IsNewSingle(db: Db, d: Db, frames: seq<Option<Msg>>, i: nat)
    requires i < |frames| && frames[i].Some?
  {
    && StoredAs(d, frames[i].value).id !in db.messages
    && forall k :: 0 <= k < i && OfSort(frames[k], true) ==>
         StoredAs(d, frames[k].value).id != StoredAs(d, frames[i].value).id
  }

  lemma {:induction false} SinglesComeFrom(frames: seq<Option<Msg>>, k: nat) returns (i: nat)
    requires k < |Singles(frames)|
    ensures i < |frames| && OfSort(frames[i], true) && HowMany(frames[..i], true) == k
  {
    var n := |frames| - 1;
    SinglesInOrder(frames);
    SinglesInOrder(frames[..n]);
    if k < |Singles(frames[..n])| {
      i := SinglesComeFrom(frames[..n], k);
      assert frames[..n][..i] == frames[..i] && frames[..n][i] == frames[i];
    } else {
      i := n;
    }
  }

  lemma {:induction false} FirstInList(db: Db, d: Db, frames: seq<Option<Msg>>, i: nat)
    requires i < |frames| && OfSort(frames[i], true) && IsNewSingle(db, d, frames, i)
    ensures var k := HowMany(frames[..i], true);
      k < |Singles(frames)| && Singles(frames)[k] == frames[i].value.(kind := Single) && FirstOfId(db, d, Singles(frames), k)
  {
    hide Singles, Prepare, OfSort;
    SinglesInOrder(frames);
    var ms, k := Singles(frames), HowMany(frames[..i], true);
    forall l | 0 <= l < k
      ensures Prepare(d, ms[l]).id != Prepare(d, ms[k]).id
    {
      var j := SinglesComeFrom(frames, l);
      if i <= j {
        NoFewer(frames, true, i, j);
      }
    }
  }

  lemma {:induction false} NoFewer(frames: seq<Option<Msg>>, single: bool, i: nat, j: nat)
    requires i <= j <= |frames|
    ensures HowMany(frames[..i], single) <= HowMany(frames[..j], single)
  {
    if i < j {
      assert frames[..j][..j - 1] == frames[..j - 1];
      NoFewer(frames, single, i, j - 1);
    }
  }

  lemma OtherKeepsSingles(db: Db, m: Msg)
    requires m.kind !in {Unset, Single}
    ensures Handle(db, m).db.singles == db.singles
  {
    StoreAddsOwnRow(db, m, ActiveUids(Roster(db, m.convId)));
    hide StoreAndPush, GroupAccepts, ActiveUids;
  }

  lemma {:induction false} OthersKeepSingles(db: Db, ms: seq<Msg>)
    requires forall m :: m in ms ==> m.kind !in {Unset, Single}
    ensures HandleAll(db, ms).db.singles == db.singles
  {
    hide Handle;
    if ms != [] {
      var k := |ms| - 1;
      OthersKeepSingles(db, ms[..k]);
      OtherKeepsSingles(HandleAll(db, ms[..k]).db, ms[k]);
    }
  }

  lemma SamePrepared(a: Db, b: Db, m: Msg)
    requires a.singles == b.singles
    ensures Prepare(a, m) == Prepare(b, m)
  {
  }

  lemma {:induction false} TurnTables(db: Db, frames: seq<Option<Msg>>)
    requires !Consume(db, frames).failed
    ensures var c, s := Consume(db, frames), AfterSingles(db, Singles(frames));
      c.db.singles == s.db.singles && Grows(s.db, c.db) && exists tail :: c.pushes == s.pushes + tail
  {
    hide Consume, AfterSingles, HandleAll, Others, Singles, Grows;
    TurnInTwo(db, frames);
    var s := AfterSingles(db, Singles(frames));
    HandleAllGrows(s.db, Others(frames));
    OthersComeFrom(frames, |frames|);
    assert frames[..|frames|] == frames;
    OthersKeepSingles(s.db, Others(frames));
  }

  lemma SameFirst(db: Db, d: Db, e: Db, frames: seq<Option<Msg>>, i: nat)
    requires i < |frames| && OfSort(frames[i], true) && IsNewSingle(db, e, frames, i) && d.singles == e.singles
    ensures IsNewSingle(db, d, frames, i) && StoredAs(d, frames[i].value) == StoredAs(e, frames[i].value)
  {
    hide Prepare;
    forall m: Msg
      ensures Prepare(d, m) == Prepare(e, m)
    {
      SamePrepared(d, e, m);
    }
  }

  lemma SameChecks(db: Db, m: Msg)
    ensures Passes(db, m.(kind := Single)) <==> Passes(db, m)
  {
  }

  lemma {:induction false} ListedInOrder(db: Db, frames: seq<Option<Msg>>, i: nat, j: nat, s: Ran)
    requires Ready(db, Singles(frames)) && NoneStuck(db, Singles(frames)) && s == AfterSingles(db, Singles(frames))
    requires i < j < |frames| && OfSort(frames[i], true) && OfSort(frames[j], true)
    requires Passes(db, frames[i].value) && Passes(db, frames[j].value)
    requires IsNewSingle(db, s.db, frames, i) && IsNewSingle(db, s.db, frames, j)
    requires StoredAs(s.db, frames[i].value).convId == StoredAs(s.db, frames[j].value).convId
    ensures InOrder(s.db, s.pushes, StoredAs(s.db, frames[i].value), StoredAs(s.db, frames[j].value))
  {
    hide AfterSingles, Singles, Ready, NoneStuck, InOrder, IsNewSingle, FirstOfId, Prepare, Passes, HowMany;
    SameChecks(db, frames[i].value);
    SameChecks(db, frames[j].value);
    FirstInList(db, s.db, frames, i);
    FirstInList(db, s.db, frames, j);
    Overtaken(frames, true, i, j);
    SinglesKeepOrder(db, Singles(frames), HowMany(frames[..i], true), HowMany(frames[..j], true));
  }

  /** One turn of the loop that does not fail: of two single-chat frames of the batch that are new, pass
      the checks and belong to one conversation, both are stored with what they say, and the one that
      comes first in the log has the smaller number and is pushed first. */
  lemma {:induction false} TurnKeepsSingleOrder(db: Db, frames: seq<Option<Msg>>, i: nat, j: nat)
    requires Ready(db, Singles(frames)) && NoneStuck(db, Singles(frames)) && !Consume(db, frames).failed
    requires i < j < |frames| && OfSort(frames[i], true) && OfSort(frames[j], true)
    requires Passes(db, frames[i].value) && Passes(db, frames[j].value)
    requires IsNewSingle(db, Consume(db, frames).db, frames, i) && IsNewSingle(db, Consume(db, frames).db, frames, j)
    requires SameConv(Consume(db, frames).db, frames[i].value, frames[j].value)
    ensures var c := Consume(db, frames);
      InOrder(c.db, c.pushes, StoredAs(c.db, frames[i].value), StoredAs(c.db, frames[j].value))
  {
    hide Consume, AfterSingles, Singles, Ready, NoneStuck, InOrder, IsNewSingle, Grows, Passes, StoredAs;
    var c, s := Consume(db, frames), AfterSingles(db, Singles(frames));
    TurnTables(db, frames);
    SameFirst(db, s.db, c.db, frames, i);
    SameFirst(db, s.db, c.db, frames, j);
    ListedInOrder(db, frames, i, j, s);
    var tail :| c.pushes == s.pushes + tail;
    InOrderStays(s.db, c.db, [], s.pushes, tail, StoredAs(c.db, frames[i].value), StoredAs(c.db, frames[j].value));
    assert [] + s.pushes + tail == c.pushes;
  }

  predicate SameConv(d: Db, m: Msg, w: Msg) {
    StoredAs(d, m).convId == StoredAs(d, w).convId
  }
}
