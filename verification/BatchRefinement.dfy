// The batched path against the slow path: which tables the two leave behind.
module BatchRefinement {
  import opened Chat
  import opened Tables
  import opened PersistSpec
  import opened PersistInvariants
  import opened BatchSpec

  // ---------------------------------------------------------------- what a batch may look like

  /** A single-chat frame as the chat servers produce it: no message id yet, and a sender whose name is
      clean. The conversation is what the client has named. */
  predicate Plain(m: Msg) {
    m.kind == Single && m.id == NoId && CleanUid(m.fromUid)
  }

  /** The random values drawn while the batch is handled are new and different from each other. */
  ghost predicate FreshDraws(db: Db, ms: seq<Msg>) {
    && (forall i :: 0 <= i < |ms| ==> Unused(db, ms[i].newConv) && Drawn(ms[i].draw) !in db.messages)
    && (forall i, j :: 0 <= i < j < |ms| ==> ms[i].newConv != ms[j].newConv && ms[i].draw != ms[j].draw)
    && (forall i, j :: 0 <= i < |ms| && 0 <= j < |ms| ==> ms[i].convId != ms[j].newConv)
  }

  ghost predicate Ready(db: Db, ms: seq<Msg>) {
    Inv(db) && CleanConvs(db) && FreshDraws(db, ms) && forall m :: m in ms ==> Plain(m)
  }

  /** What the slow path would check of a frame that is not early. */
  predicate Passes(db: Db, m: Msg) {
    && m.fromUid in db.users && m.toUid in db.users
    && (m.convId == "" || (m.convId in db.convs && (m.convId, m.fromUid) in db.convMembers))
  }

  // ---------------------------------------------------------------- states on the way

  function Draws(ms: seq<Msg>): set<ConvId> {
    set m | m in ms :: m.newConv
  }

  /** A state reached from `db` by handling frames that draw from `names`. */
  ghost predicate Within(db: Db, d: Db, names: set<ConvId>) {
    && d.users == db.users
    && (forall c :: c !in names ==> (c in d.convs <==> c in db.convs))
    && (forall c, u :: c !in names ==> ((c, u) in d.convMembers <==> (c, u) in db.convMembers))
    && (forall k :: k in db.singles ==> k in d.singles && d.singles[k] == db.singles[k])
    && (forall k :: k in d.singles && k !in db.singles ==> d.singles[k] in names)
  }

  ghost predicate Good(db: Db, d: Db, ms: seq<Msg>, k: nat) {
    && Inv(db) && CleanConvs(db) && Inv(d) && Within(db, d, Draws(ms))
    && (forall j :: k <= j < |ms| ==> Unused(d, ms[j].newConv))
    && (forall m :: m in ms ==> Unused(db, m.newConv) && Plain(m) && m.convId !in Draws(ms))
  }

  lemma ReadyIsGood(db: Db, ms: seq<Msg>)
    requires Ready(db, ms)
    ensures Good(db, db, ms, 0)
  {
  }

  // ---------------------------------------------------------------- frames that are not early

  function RestStep(d: Db, p: Msg, passes: bool): Db {
    if passes && p.id !in d.messages then Append(d, p.id, p.convId, p.fromUid, p.kind, p.content) else d
  }

  lemma StoreStep(d: Db, m: Msg)
    requires SeqInv(d)
    ensures StoreAndPush(d, m, []).db == RestStep(d, AssignId(m), true)
    ensures StoreAndPush(d, m, []).msg.id in StoreAndPush(d, m, []).db.messages
    ensures StoreAndPush(d, m, []).status == Accepted
  {
    NextNumberIsFree(d, AssignId(m).convId);
  }

  lemma RestValidated(db: Db, d: Db, ms: seq<Msg>, k: nat, m: Msg)
    requires Good(db, d, ms, k) && m in ms && !IsEarly(db, m)
    ensures ValidateSingle(d, m) == if Passes(db, m) then Pass(d, ResolveOne(db, m)) else Reject
    ensures Prepare(db, m).convId !in Draws(ms) && (Passes(db, m) ==> '|' !in Prepare(db, m).convId)
  {
    hide SeqInv;
  }

  lemma RestHandled(db: Db, d: Db, ms: seq<Msg>, k: nat, m: Msg)
    requires Good(db, d, ms, k) && m in ms && !IsEarly(db, m)
    ensures Handle(d, m).db == RestStep(d, Prepare(db, m), Passes(db, m))
    ensures Handle(d, m).status != Fault
    ensures Prepare(db, m).convId !in Draws(ms) && (Passes(db, m) ==> '|' !in Prepare(db, m).convId)
    ensures Handle(d, m).status == Accepted <==> Passes(db, m)
  {
    hide SeqInv, SingleInv, Within, StoreAndPush, RestStep;
    RestValidated(db, d, ms, k, m);
    StoreStep(d, ResolveOne(db, m));
    assert !Passes(db, m) ==> RestStep(d, Prepare(db, m), false) == d by {
      RestStepIdle(d, Prepare(db, m));
    }
  }

  lemma RestStepIdle(d: Db, p: Msg)
    ensures RestStep(d, p, false) == d
  {
  }

  lemma RestStepKeepsInv(d: Db, p: Msg, passes: bool)
    requires Inv(d)
    ensures Inv(RestStep(d, p, passes))
  {
    if passes && p.id !in d.messages {
      AppendKeepsSeqInv(d, p.id, p.convId, p.fromUid, p.kind, p.content);
    }
  }

  lemma RestStepKeepsWithin(db: Db, d: Db, names: set<ConvId>, p: Msg, passes: bool)
    requires Within(db, d, names)
    ensures Within(db, RestStep(d, p, passes), names)
  {
  }

  lemma RestStepKeepsUnused(d: Db, p: Msg, passes: bool, c: ConvId)
    requires Unused(d, c) && c != p.convId
    ensures Unused(RestStep(d, p, passes), c)
  {
  }

  lemma RestKeepsGood(db: Db, d: Db, ms: seq<Msg>, k: nat, m: Msg)
    requires Good(db, d, ms, k) && m in ms && !IsEarly(db, m)
    ensures Good(db, Handle(d, m).db, ms, k)
  {
    RestHandled(db, d, ms, k, m);
    var p, passes := Prepare(db, m), Passes(db, m);
    var e := RestStep(d, p, passes);
    RestStepKeepsInv(d, p, passes);
    RestStepKeepsWithin(db, d, Draws(ms), p, passes);
    forall j | k <= j < |ms|
      ensures Unused(e, ms[j].newConv)
    {
      assert ms[j].newConv in Draws(ms);
      RestStepKeepsUnused(d, p, passes, ms[j].newConv);
    }
  }

  // ---------------------------------------------------------------- early frames

  /** The conversation an early frame ends up in. */
  function EarlyConv(d: Db, m: Msg): ConvId {
    var key := SingleKey(m.fromUid, m.toUid);
    if key in d.singles then d.singles[key] else m.newConv
  }

  function WithConv(d: Db, m: Msg): Db {
    var key := SingleKey(m.fromUid, m.toUid);
    if key in d.singles then d
    else d.(convs := d.convs[m.newConv := Conversation(false, [m.fromUid, m.toUid], 0)],
            singles := d.singles[key := m.newConv],
            convMembers := d.convMembers + {(m.newConv, m.fromUid), (m.newConv, m.toUid)})
  }

  function EarlyPassed(m: Msg, c: ConvId): Msg {
    AssignId(m.(convId := c))
  }

  function EarlyStep(d: Db, m: Msg): Db {
    if m.fromUid in d.users && m.toUid in d.users && m.fromUid != m.toUid then
      RestStep(WithConv(d, m), EarlyPassed(m, EarlyConv(d, m)), true)
    else d
  }

  lemma EarlyConvIsDrawn(db: Db, d: Db, ms: seq<Msg>, m: Msg)
    requires Within(db, d, Draws(ms)) && IsEarly(db, m) && m in ms
    ensures EarlyConv(d, m) in Draws(ms)
  {
  }

  lemma EarlyOpened(d: Db, m: Msg)
    requires Inv(d) && Unused(d, m.newConv) && Plain(m) && m.convId == ""
    requires m.fromUid in d.users && m.toUid in d.users && m.fromUid != m.toUid
    ensures Inv(WithConv(d, m))
    ensures ValidateSingle(d, m) == Pass(WithConv(d, m), m.(convId := EarlyConv(d, m)))
  {
    OpenKeepsInv(d, m.fromUid, m.toUid, m.newConv);
  }

  lemma EarlyHandled(d: Db, m: Msg)
    requires Inv(d) && Unused(d, m.newConv) && Plain(m) && m.convId == ""
    ensures Handle(d, m).db == EarlyStep(d, m)
    ensures Handle(d, m).status == Fault <==> Stuck(d, m)
    ensures Handle(d, m).status == Accepted ==> Handle(d, m).msg.id in EarlyStep(d, m).messages
  {
    HandleKeepsInv(d, m);
    if m.fromUid in d.users && m.toUid in d.users && m.fromUid != m.toUid {
      EarlyOpened(d, m);
      StoreStep(WithConv(d, m), m.(convId := EarlyConv(d, m)));
    }
  }

  lemma WithConvKeeps(db: Db, d: Db, names: set<ConvId>, m: Msg)
    requires Within(db, d, names) && m.newConv in names
    ensures Within(db, WithConv(d, m), names)
  {
  }

  lemma WithConvKeepsUnused(d: Db, m: Msg, c: ConvId)
    requires Unused(d, c) && c != m.newConv
    ensures Unused(WithConv(d, m), c)
  {
  }

  lemma EarlyKeepsGood(db: Db, d: Db, ms: seq<Msg>, k: nat)
    requires Good(db, d, ms, k) && k < |ms| && IsEarly(db, ms[k])
    requires forall j :: k < j < |ms| ==> ms[j].newConv != ms[k].newConv
    ensures Good(db, Handle(d, ms[k]).db, ms, k + 1)
  {
    var m := ms[k];
    EarlyHandled(d, m);
    HandleKeepsInv(d, m);
    assert m in ms && m.newConv in Draws(ms);
    var q := EarlyPassed(m, EarlyConv(d, m));
    if m.fromUid in d.users && m.toUid in d.users && m.fromUid != m.toUid {
      var o := WithConv(d, m);
      WithConvKeeps(db, d, Draws(ms), m);
      RestStepKeepsWithin(db, o, Draws(ms), q, true);
      forall j | k < j < |ms|
        ensures Unused(RestStep(o, q, true), ms[j].newConv)
      {
        WithConvKeepsUnused(d, m, ms[j].newConv);
        assert ms[j].newConv != EarlyConv(d, m) by {
          if SingleKey(m.fromUid, m.toUid) in d.singles {
            assert EarlyConv(d, m) in d.convs;
          }
        }
        RestStepKeepsUnused(o, q, true, ms[j].newConv);
      }
    }
  }

  // ---------------------------------------------------------------- the two commute

  lemma UpdatesCommute<K, V>(m: map<K, V>, a: K, x: V, b: K, y: V)
    requires a != b
    ensures m[a := x][b := y] == m[b := y][a := x]
  {
  }

  lemma AppendsCommute(d: Db, p: Msg, q: Msg)
    requires p.id != q.id && p.convId != q.convId
    ensures RestStep(RestStep(d, p, true), q, true) == RestStep(RestStep(d, q, true), p, true)
  {
    if p.id !in d.messages && q.id !in d.messages {
      var n, k := Counter(d, p.convId) + 1, Counter(d, q.convId) + 1;
      UpdatesCommute(d.messages, p.id, Row(p.convId, n, p.fromUid, p.kind, p.content),
                     q.id, Row(q.convId, k, q.fromUid, q.kind, q.content));
      UpdatesCommute(d.counters, p.convId, n, q.convId, k);
      RaisesCommute(d.convs, p.convId, n, q.convId, k);
    }
  }

  lemma RaisesCommute(convs: map<ConvId, Conversation>, c: ConvId, n: int, e: ConvId, k: int)
    requires c != e
    ensures RaiseLastSeq(RaiseLastSeq(convs, c, n), e, k) == RaiseLastSeq(RaiseLastSeq(convs, e, k), c, n)
  {
  }

  lemma OpenCommutes(d: Db, p: Msg, m: Msg)
    requires p.convId != m.newConv
    ensures WithConv(RestStep(d, p, true), m) == RestStep(WithConv(d, m), p, true)
  {
    if p.id !in d.messages && SingleKey(m.fromUid, m.toUid) !in d.singles {
      RaiseElsewhere(d.convs, p.convId, Counter(d, p.convId) + 1,
                     m.newConv, Conversation(false, [m.fromUid, m.toUid], 0));
    }
  }

  lemma RaiseElsewhere(convs: map<ConvId, Conversation>, c: ConvId, n: int, e: ConvId, row: Conversation)
    requires c != e
    ensures RaiseLastSeq(convs[e := row], c, n) == RaiseLastSeq(convs, c, n)[e := row]
  {
  }

  lemma StepsCommute(d: Db, m: Msg, p: Msg, passes: bool)
    requires Plain(m) && '|' !in EarlyConv(d, m) && (passes ==> '|' !in p.convId) && '|' !in p.fromUid
    requires p.convId != m.newConv && p.convId != EarlyConv(d, m)
    requires p.id == DeriveId(p) && p.draw != m.draw
    ensures EarlyStep(RestStep(d, p, passes), m) == RestStep(EarlyStep(d, m), p, passes)
  {
    if passes {
      var q := EarlyPassed(m, EarlyConv(d, m));
      IdNameInjective(p.convId, p.fromUid, p.cliId, q.convId, q.fromUid, q.cliId);
      OpenCommutes(d, p, m);
      AppendsCommute(WithConv(d, m), p, q);
    }
  }

  lemma LateThenEarly(db: Db, d: Db, ms: seq<Msg>, k: nat, r: Msg)
    requires Good(db, d, ms, k) && k < |ms| && IsEarly(db, ms[k])
    requires r in ms && !IsEarly(db, r)
    ensures Handle(Handle(d, r).db, ms[k]).db == EarlyStep(RestStep(d, Prepare(db, r), Passes(db, r)), ms[k])
  {
    RestHandled(db, d, ms, k, r);
    RestKeepsGood(db, d, ms, k, r);
    EarlyHandled(Handle(d, r).db, ms[k]);
  }

  lemma EarlyThenLate(db: Db, d: Db, ms: seq<Msg>, k: nat, r: Msg)
    requires Good(db, d, ms, k) && k < |ms| && IsEarly(db, ms[k])
    requires r in ms && !IsEarly(db, r)
    requires forall j :: k < j < |ms| ==> ms[j].newConv != ms[k].newConv
    ensures Handle(Handle(d, ms[k]).db, r).db == RestStep(EarlyStep(d, ms[k]), Prepare(db, r), Passes(db, r))
  {
    EarlyHandled(d, ms[k]);
    EarlyKeepsGood(db, d, ms, k);
    RestHandled(db, Handle(d, ms[k]).db, ms, k + 1, r);
  }

  lemma CommuteFacts(db: Db, d: Db, ms: seq<Msg>, k: nat, r: Msg)
    requires Good(db, d, ms, k) && k < |ms| && IsEarly(db, ms[k])
    requires r in ms && !IsEarly(db, r)
    ensures var m, p := ms[k], Prepare(db, r);
      && Plain(m) && '|' !in EarlyConv(d, m) && (Passes(db, r) ==> '|' !in p.convId) && '|' !in p.fromUid
      && p.convId != m.newConv && p.convId != EarlyConv(d, m)
      && p.id == DeriveId(p) && p.draw == r.draw
  {
    RestHandled(db, d, ms, k, r);
    assert ms[k] in ms && ms[k].newConv in Draws(ms);
    EarlyConvIsDrawn(db, d, ms, ms[k]);
  }

  /** An early frame may overtake a frame of an existing conversation. */
  lemma Commute(db: Db, d: Db, ms: seq<Msg>, k: nat, r: Msg)
    requires Good(db, d, ms, k) && k < |ms| && IsEarly(db, ms[k])
    requires r in ms && !IsEarly(db, r) && r.draw != ms[k].draw
    requires forall j :: k < j < |ms| ==> ms[j].newConv != ms[k].newConv
    ensures Handle(Handle(d, r).db, ms[k]).db == Handle(Handle(d, ms[k]).db, r).db
  {
    LateThenEarly(db, d, ms, k, r);
    EarlyThenLate(db, d, ms, k, r);
    CommuteFacts(db, d, ms, k, r);
    StepsCommute(d, ms[k], Prepare(db, r), Passes(db, r));
  }

  // ---------------------------------------------------------------- moving the early frames up

  /** Handling the frames in order, whatever becomes of each. */
  function Fold(db: Db, ms: seq<Msg>): Db {
    if ms == [] then db else Handle(Fold(db, ms[..|ms| - 1]), ms[|ms| - 1]).db
  }

  function EarlyOnes(db: Db, ms: seq<Msg>): seq<Msg> {
    if ms == [] then []
    else EarlyOnes(db, ms[..|ms| - 1]) + if IsEarly(db, ms[|ms| - 1]) then [ms[|ms| - 1]] else []
  }

  function LateOnes(db: Db, ms: seq<Msg>): seq<Msg> {
    if ms == [] then []
    else LateOnes(db, ms[..|ms| - 1]) + if IsEarly(db, ms[|ms| - 1]) then [] else [ms[|ms| - 1]]
  }

  lemma {:induction false} LateOnesAreLate(db: Db, ms: seq<Msg>)
    ensures forall m :: m in LateOnes(db, ms) ==> m in ms && !IsEarly(db, m)
  {
    if ms != [] {
      LateOnesAreLate(db, ms[..|ms| - 1]);
    }
  }

  lemma {:induction false} FoldSnoc(db: Db, ms: seq<Msg>, m: Msg)
    ensures Fold(db, ms + [m]) == Handle(Fold(db, ms), m).db
  {
    assert (ms + [m])[..|ms|] == ms;
  }

  lemma {:induction false} LateKeepsGood(db: Db, d: Db, ms: seq<Msg>, k: nat, late: seq<Msg>)
    requires Good(db, d, ms, k)
    requires forall r :: r in late ==> r in ms && !IsEarly(db, r)
    ensures Good(db, Fold(d, late), ms, k)
  {
    if late != [] {
      LateKeepsGood(db, d, ms, k, late[..|late| - 1]);
      RestKeepsGood(db, Fold(d, late[..|late| - 1]), ms, k, late[|late| - 1]);
    }
  }

  lemma {:induction false} Overtake(db: Db, d: Db, ms: seq<Msg>, k: nat, late: seq<Msg>)
    requires Good(db, d, ms, k) && k < |ms| && IsEarly(db, ms[k])
    requires forall r :: r in late ==> r in ms && !IsEarly(db, r) && r.draw != ms[k].draw
    requires forall j :: k < j < |ms| ==> ms[j].newConv != ms[k].newConv
    ensures Handle(Fold(d, late), ms[k]).db == Fold(Handle(d, ms[k]).db, late)
  {
    if late != [] {
      var init, r := late[..|late| - 1], late[|late| - 1];
      Overtake(db, d, ms, k, init);
      LateKeepsGood(db, d, ms, k, init);
      Commute(db, Fold(d, init), ms, k, r);
    }
  }

  lemma {:induction false} PrefixSnoc(db: Db, ms: seq<Msg>, k: nat)
    requires 0 < k <= |ms|
    ensures EarlyOnes(db, ms[..k]) ==
      if IsEarly(db, ms[k - 1]) then EarlyOnes(db, ms[..k - 1]) + [ms[k - 1]] else EarlyOnes(db, ms[..k - 1])
    ensures LateOnes(db, ms[..k]) ==
      if IsEarly(db, ms[k - 1]) then LateOnes(db, ms[..k - 1]) else LateOnes(db, ms[..k - 1]) + [ms[k - 1]]
    ensures Fold(db, ms[..k]) == Handle(Fold(db, ms[..k - 1]), ms[k - 1]).db
  {
    assert ms[..k][..k - 1] == ms[..k - 1];
  }

  lemma GoodLater(db: Db, d: Db, ms: seq<Msg>, k: nat)
    requires Good(db, d, ms, k)
    ensures Good(db, d, ms, k + 1)
  {
  }

  lemma {:induction false} EarlyKeepGood(db: Db, ms: seq<Msg>, k: nat)
    requires Ready(db, ms) && k <= |ms|
    ensures Good(db, Fold(db, EarlyOnes(db, ms[..k])), ms, k)
  {
    if k == 0 {
      ReadyIsGood(db, ms);
    } else {
      EarlyKeepGood(db, ms, k - 1);
      PrefixSnoc(db, ms, k);
      var d := Fold(db, EarlyOnes(db, ms[..k - 1]));
      if IsEarly(db, ms[k - 1]) {
        FoldSnoc(db, EarlyOnes(db, ms[..k - 1]), ms[k - 1]);
        EarlyKeepsGood(db, d, ms, k - 1);
      } else {
        GoodLater(db, d, ms, k - 1);
      }
    }
  }

  /** Handling a batch in order leaves the same tables as handling its early frames first. */
  lemma {:induction false} EarlyFirst(db: Db, ms: seq<Msg>, k: nat)
    requires Ready(db, ms) && k <= |ms|
    ensures Fold(db, ms[..k]) == Fold(Fold(db, EarlyOnes(db, ms[..k])), LateOnes(db, ms[..k]))
  {
    if k > 0 {
      EarlyFirst(db, ms, k - 1);
      PrefixSnoc(db, ms, k);
      var m := ms[k - 1];
      var early, late := EarlyOnes(db, ms[..k - 1]), LateOnes(db, ms[..k - 1]);
      if IsEarly(db, m) {
        LateOnesAreLate(db, ms[..k - 1]);
        EarlyKeepGood(db, ms, k - 1);
        FoldSnoc(db, early, m);
        Overtake(db, Fold(db, early), ms, k - 1, late);
      } else {
        FoldSnoc(Fold(db, early), late, m);
      }
    }
  }
}
