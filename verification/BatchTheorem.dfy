// The main result about the batched path: it leaves the tables of the slow path, exactly when the
// frames that name their conversation come from members of it.
module BatchTheorem {
  import opened Chat
  import opened Tables
  import opened PersistSpec
  import opened PersistInvariants
  import opened BatchSpec
  import opened BatchBulk
  import opened BatchRefinement

  /** The check the batched path leaves out, as a caller could make it. */
  ghost predicate SendersBelong(db: Db, ms: seq<Msg>) {
    forall m :: m in ms && m.convId != "" && m.convId in db.convs && AssignId(m).id !in db.messages ==>
      (m.convId, m.fromUid) in db.convMembers
  }

  // ---------------------------------------------------------------- no faults on either path

  lemma {:induction false} FoldKeepsGood(db: Db, ms: seq<Msg>, k: nat)
    requires Ready(db, ms) && k <= |ms|
    ensures Good(db, Fold(db, ms[..k]), ms, k)
  {
    if k == 0 {
      ReadyIsGood(db, ms);
    } else {
      FoldKeepsGood(db, ms, k - 1);
      PrefixSnoc(db, ms, k);
      var d := Fold(db, ms[..k - 1]);
      if IsEarly(db, ms[k - 1]) {
        EarlyKeepsGood(db, d, ms, k - 1);
      } else {
        RestKeepsGood(db, d, ms, k - 1, ms[k - 1]);
        GoodLater(db, Handle(d, ms[k - 1]).db, ms, k - 1);
      }
    }
  }

  lemma StepFault(db: Db, d: Db, ms: seq<Msg>, k: nat)
    requires Good(db, d, ms, k) && k < |ms|
    ensures Handle(d, ms[k]).status == Fault ==> Stuck(db, ms[k])
  {
    if IsEarly(db, ms[k]) {
      EarlyHandled(d, ms[k]);
    } else {
      RestHandled(db, d, ms, k, ms[k]);
    }
  }

  lemma NotStuck(db: Db, ms: seq<Msg>, k: nat)
    requires NoneStuck(db, ms) && k < |ms|
    ensures !Stuck(db, ms[k])
  {
  }

  lemma {:induction false} NoFrames(db: Db, ms: seq<Msg>)
    ensures HandleAll(db, ms[..0]) == Ran(db, [], false) && Fold(db, ms[..0]) == db
    ensures RunEarly(db, ms[..0]) == EarlyRun(db, [], [], false) && EarlyOnes(db, ms[..0]) == [] && Fold(db, []) == db
  {
  }

  lemma {:induction false} SlowPathIsFold(db: Db, ms: seq<Msg>, k: nat)
    requires Ready(db, ms) && NoneStuck(db, ms) && k <= |ms|
    ensures HandleAll(db, ms[..k]).db == Fold(db, ms[..k]) && !HandleAll(db, ms[..k]).failed
  {
    hide *;
    if k == 0 {
      NoFrames(db, ms);
    } else {
      SlowPathIsFold(db, ms, k - 1);
      FoldKeepsGood(db, ms, k - 1);
      NotStuck(db, ms, k - 1);
      StepFault(db, Fold(db, ms[..k - 1]), ms, k - 1);
      HandleAllMore(db, ms, k - 1);
      PrefixSnoc(db, ms, k);
    }
  }

  // ---------------------------------------------------------------- the early frames

  /** A frame whose handling has ended: handled again it changes nothing. */
  predicate Settled(d: Db, m: Msg) {
    && m.kind == Single
    && (m.fromUid !in d.users || m.toUid !in d.users
        || (m.convId != "" && m.id != NoId && m.id in d.messages))
  }

  lemma SettledChangesNothing(d: Db, m: Msg)
    requires Settled(d, m)
    ensures Handle(d, m).db == d && Handle(d, m).status != Fault
  {
  }

  lemma EarlyConvIsNamed(d: Db, m: Msg)
    requires SingleInv(d) && Unused(d, m.newConv)
    ensures EarlyConv(d, m) != ""
  {
  }

  lemma EarlySettles(d: Db, m: Msg)
    requires Inv(d) && Unused(d, m.newConv) && Plain(m) && m.convId == "" && !Stuck(d, m)
    ensures Settled(Handle(d, m).db, Handle(d, m).msg)
  {
    hide SeqInv, SingleInv;
    if m.fromUid in d.users && m.toUid in d.users {
      EarlyOpened(d, m);
      EarlyConvIsNamed(d, m);
      StoreStep(WithConv(d, m), m.(convId := EarlyConv(d, m)));
    }
  }

  ghost predicate Mutated(db: Db, d: Db, m: Msg, m': Msg) {
    if IsEarly(db, m) then Settled(d, m') else m' == Prepare(db, m)
  }

  lemma MutatedStays(db: Db, d: Db, e: Db, m: Msg, m': Msg)
    requires Mutated(db, d, m, m') && Grows(d, e)
    ensures Mutated(db, e, m, m')
  {
  }

  lemma {:induction false} RunEarlyIsFold(db: Db, ms: seq<Msg>, k: nat)
    requires Ready(db, ms) && NoneStuck(db, ms) && k <= |ms|
    ensures !RunEarly(db, ms[..k]).failed
    ensures RunEarly(db, ms[..k]).db == Fold(db, EarlyOnes(db, ms[..k]))
  {
    hide *;
    if k == 0 {
      NoFrames(db, ms);
    } else {
      RunEarlyIsFold(db, ms, k - 1);
      PrefixSnoc(db, ms, k);
      RunEarlyMore(db, ms, k - 1);
      if IsEarly(db, ms[k - 1]) {
        FoldSnoc(db, EarlyOnes(db, ms[..k - 1]), ms[k - 1]);
        EarlyKeepGood(db, ms, k - 1);
        EarlyFaults(db, ms, k - 1);
      }
    }
  }

  lemma {:induction false} EarlyFaults(db: Db, ms: seq<Msg>, k: nat)
    requires Ready(db, ms) && NoneStuck(db, ms) && k < |ms| && IsEarly(db, ms[k])
    requires Good(db, Fold(db, EarlyOnes(db, ms[..k])), ms, k)
    ensures Handle(Fold(db, EarlyOnes(db, ms[..k])), ms[k]).status != Fault
  {
    hide SeqInv, SingleInv, Handle, RunEarly, Fold, EarlyOnes, FreshDraws;
    EarlyHandled(Fold(db, EarlyOnes(db, ms[..k])), ms[k]);
  }

  lemma {:induction false} RunEarlyMutates(db: Db, ms: seq<Msg>, k: nat)
    requires Ready(db, ms) && NoneStuck(db, ms) && k <= |ms|
    ensures var e := RunEarly(db, ms[..k]);
      forall i :: 0 <= i < k ==> Mutated(db, e.db, ms[i], e.msgs[i])
  {
    hide *;
    if k > 0 {
      RunEarlyMutates(db, ms, k - 1);
      RunEarlyIsFold(db, ms, k - 1);
      RunEarlyMore(db, ms, k - 1);
      var before, e := RunEarly(db, ms[..k - 1]), RunEarly(db, ms[..k]);
      LastMutates(db, ms, k - 1);
      forall i | 0 <= i < k - 1
        ensures Mutated(db, e.db, ms[i], e.msgs[i])
      {
        assert e.msgs[i] == before.msgs[i];
        MutatedStays(db, before.db, e.db, ms[i], before.msgs[i]);
      }
    }
  }

  lemma StuckStays(db: Db, d: Db, m: Msg)
    requires d.users == db.users
    ensures Stuck(d, m) <==> Stuck(db, m)
  {
  }

  lemma {:induction false} LastMutates(db: Db, ms: seq<Msg>, k: nat)
    requires Ready(db, ms) && NoneStuck(db, ms) && k < |ms|
    ensures var before, e := RunEarly(db, ms[..k]), RunEarly(db, ms[..k + 1]);
      Grows(before.db, e.db) && Mutated(db, e.db, ms[k], e.msgs[k])
  {
    hide SeqInv, SingleInv, Handle, RunEarly, Prepare, Grows, Settled, Fold, EarlyOnes, FreshDraws;
    var before, m := RunEarly(db, ms[..k]), ms[k];
    RunEarlyMore(db, ms, k);
    RunEarlyIsFold(db, ms, k);
    GrowsReflexive(before.db);
    NotStuck(db, ms, k);
    if IsEarly(db, m) {
      EarlyKeepGood(db, ms, k);
      StuckStays(db, before.db, m);
      EarlySettles(before.db, m);
      HandleGrows(before.db, m);
    }
  }

  // ---------------------------------------------------------------- fallback

  lemma PreparedHandled(db: Db, d: Db, ms: seq<Msg>, k: nat, m: Msg)
    requires Good(db, d, ms, k) && m in ms && !IsEarly(db, m)
    ensures Handle(d, Prepare(db, m)).db == Handle(d, m).db
    ensures Handle(d, Prepare(db, m)).status != Fault
  {
    var p := Prepare(db, m);
    RestHandled(db, d, ms, k, m);
    assert Handle(d, p).db == RestStep(d, p, Passes(db, m)) && Handle(d, p).status != Fault by {
      PreparedPasses(db, d, ms, k, m);
      hide SingleInv;
      if Passes(db, m) {
        StoreStep(d, p);
      }
    }
  }

  lemma PreparedPasses(db: Db, d: Db, ms: seq<Msg>, k: nat, m: Msg)
    requires Good(db, d, ms, k) && m in ms && !IsEarly(db, m)
    ensures ValidateSingle(d, Prepare(db, m)) == if Passes(db, m) then Pass(d, Prepare(db, m)) else Reject
  {
    hide SeqInv;
  }

  lemma {:induction false} HandleAllGrows(db: Db, ms: seq<Msg>)
    ensures Grows(db, HandleAll(db, ms).db)
  {
    hide Handle;
    if ms != [] {
      var k := |ms| - 1;
      var before := HandleAll(db, ms[..k]);
      HandleAllGrows(db, ms[..k]);
      HandleGrows(before.db, ms[k]);
      GrowsTransitive(db, before.db, Handle(before.db, ms[k]).db);
    }
  }

  /** Handling the frames again, as the batch left them, adds what the slow path would have added. */
  lemma {:induction false} AgainIsLate(db: Db, ms: seq<Msg>, e: EarlyRun, k: nat)
    requires Ready(db, ms) && NoneStuck(db, ms) && k <= |ms| && e == RunEarly(db, ms)
    ensures HandleAll(e.db, e.msgs[..k]).db == Fold(e.db, LateOnes(db, ms[..k]))
    ensures !HandleAll(e.db, e.msgs[..k]).failed
  {
    hide SeqInv, SingleInv, Handle, HandleAll, RunEarly, Grows, Settled, FreshDraws;
    if k == 0 {
      NothingHandled(e.db, e.msgs[..0]);
    } else {
      AgainIsLate(db, ms, e, k - 1);
      AgainStep(db, ms, e, k - 1, HandleAll(e.db, e.msgs[..k - 1]).db, LateOnes(db, ms[..k - 1]));
      HandleAllMore(e.db, e.msgs, k - 1);
      PrefixSnoc(db, ms, k);
    }
  }

  lemma {:induction false} NothingHandled(db: Db, ms: seq<Msg>)
    requires ms == []
    ensures HandleAll(db, ms).db == db && !HandleAll(db, ms).failed
  {
  }

  lemma {:induction false} AgainStep(db: Db, ms: seq<Msg>, e: EarlyRun, i: nat, x: Db, late: seq<Msg>)
    requires Ready(db, ms) && NoneStuck(db, ms) && i < |ms| && e == RunEarly(db, ms)
    requires late == LateOnes(db, ms[..i]) && x == HandleAll(e.db, e.msgs[..i]).db == Fold(e.db, late)
    ensures Handle(x, e.msgs[i]).status != Fault
    ensures Handle(x, e.msgs[i]).db == if IsEarly(db, ms[i]) then x else Fold(e.db, late + [ms[i]])
  {
    hide SeqInv, SingleInv, Handle, HandleAll, Grows, Settled, FreshDraws;
    assert ms[..|ms|] == ms;
    var m := ms[i];
    RunEarlyIsFold(db, ms, |ms|);
    RunEarlyMutates(db, ms, |ms|);
    assert Mutated(db, e.db, m, e.msgs[i]);
    if IsEarly(db, m) {
      HandleAllGrows(e.db, e.msgs[..i]);
      MutatedStays(db, e.db, x, m, e.msgs[i]);
      SettledChangesNothing(x, e.msgs[i]);
    } else {
      EarlyKeepGood(db, ms, |ms|);
      LateOnesAreLate(db, ms[..i]);
      LateKeepsGood(db, e.db, ms, |ms|, late);
      PreparedHandled(db, x, ms, |ms|, m);
      FoldSnoc(e.db, late, m);
    }
  }
}
