// The order of one turn of the persist worker's loop: the frames of a kind are handled in the order of
// the log, so of two group frames the earlier one is numbered and pushed first.
module TurnOrder {
  import opened Wrappers
  import opened Chat
  import opened Tables
  import opened PersistSpec
  import opened PersistInvariants
  import opened BatchSpec
  import opened BatchBulk
  import opened GroupInvariants
  import opened GroupFanout
  import opened Delivered

  // ---------------------------------------------------------------- which frame is handled when

  /** A payload that parses, with the type of a single-chat frame or none at all; or with another. */
  predicate OfSort(frame: Option<Msg>, single: bool) {
    frame.Some? && (frame.value.kind in {Unset, Single} <==> single)
  }

  function HowMany(frames: seq<Option<Msg>>, single: bool): nat {
    if frames == [] then 0
    else HowMany(frames[..|frames| - 1], single) + if OfSort(frames[|frames| - 1], single) then 1 else 0
  }

  lemma {:induction false} SplitOne(frames: seq<Option<Msg>>)
    requires frames != []
    ensures var n, m := |frames| - 1, frames[|frames| - 1];
      && Singles(frames) == Singles(frames[..n]) + (if OfSort(m, true) then [m.value.(kind := Single)] else [])
      && Others(frames) == Others(frames[..n]) + (if OfSort(m, false) then [m.value] else [])
  {
  }

  /** The single-chat frames of a fetched batch, in the order of the log: each stands behind as many as
      come before it in the batch, and there are no others. */
  lemma {:induction false} SinglesInOrder(frames: seq<Option<Msg>>)
    ensures |Singles(frames)| == HowMany(frames, true)
    ensures forall i :: 0 <= i < |frames| && OfSort(frames[i], true) ==>
      var k := HowMany(frames[..i], true);
      k < |Singles(frames)| && Singles(frames)[k] == frames[i].value.(kind := Single)
  {
    if frames != [] {
      hide Singles, OfSort;
      var n := |frames| - 1;
      SplitOne(frames);
      SinglesInOrder(frames[..n]);
      forall i | 0 <= i < n && OfSort(frames[i], true)
        ensures HowMany(frames[..i], true) < |Singles(frames[..n])|
        ensures Singles(frames[..n])[HowMany(frames[..i], true)] == frames[i].value.(kind := Single)
      {
        assert frames[..n][i] == frames[i] && frames[..n][..i] == frames[..i];
      }
    }
  }

  /** The same of the group and event frames. */
  lemma {:induction false} OthersInOrder(frames: seq<Option<Msg>>)
    ensures |Others(frames)| == HowMany(frames, false)
    ensures forall i :: 0 <= i < |frames| && OfSort(frames[i], false) ==>
      var k := HowMany(frames[..i], false); k < |Others(frames)| && Others(frames)[k] == frames[i].value
  {
    if frames != [] {
      hide Others, OfSort;
      var n := |frames| - 1;
      SplitOne(frames);
      OthersInOrder(frames[..n]);
      forall i | 0 <= i < n && OfSort(frames[i], false)
        ensures HowMany(frames[..i], false) < |Others(frames[..n])|
        ensures Others(frames[..n])[HowMany(frames[..i], false)] == frames[i].value
      {
        assert frames[..n][i] == frames[i] && frames[..n][..i] == frames[..i];
      }
    }
  }

  lemma {:induction false} Overtaken(frames: seq<Option<Msg>>, single: bool, i: nat, j: nat)
    requires i < j <= |frames| && OfSort(frames[i], single)
    ensures HowMany(frames[..i], single) < HowMany(frames[..j], single)
  {
    assert frames[..j][..j - 1] == frames[..j - 1];
    if i < j - 1 {
      Overtaken(frames, single, i, j - 1);
    }
  }

  lemma {:induction false} OthersComeFrom(frames: seq<Option<Msg>>, i: nat)
    requires i <= |frames|
    ensures Others(frames[..i]) <= Others(frames)
    ensures forall m :: m in Others(frames[..i]) ==> exists k :: 0 <= k < i && OfSort(frames[k], false) && frames[k].value == m
    decreases |frames|
  {
    var n := |frames| - 1;
    if i == |frames| {
      assert frames[..i] == frames;
      if frames != [] {
        OthersComeFrom(frames[..n], n);
        assert frames[..n][..n] == frames[..n];
        forall m | m in Others(frames)
          ensures exists k :: 0 <= k < i && OfSort(frames[k], false) && frames[k].value == m
        {
          if m in Others(frames[..n]) {
            var k :| 0 <= k < n && OfSort(frames[..n][k], false) && frames[..n][k].value == m;
            assert OfSort(frames[k], false) && frames[k].value == m;
          } else {
            assert OfSort(frames[n], false) && frames[n].value == m;
          }
        }
      }
    } else {
      OthersComeFrom(frames[..n], i);
      assert frames[..n][..i] == frames[..i];
      forall m | m in Others(frames[..i])
        ensures exists k :: 0 <= k < i && OfSort(frames[k], false) && frames[k].value == m
      {
        var k :| 0 <= k < i && OfSort(frames[..n][k], false) && frames[..n][k].value == m;
        assert OfSort(frames[k], false) && frames[k].value == m;
      }
    }
  }

  // ---------------------------------------------------------------- one after the other

  /** The tables only grow, the tables of the groups stay, and no counter goes back. */
  ghost predicate Onward(a: Db, b: Db) {
    Grows(a, b) && forall c :: Counter(a, c) <= Counter(b, c)
  }

  lemma OnwardTransitive(a: Db, b: Db, c: Db)
    requires Onward(a, b) && Onward(b, c)
    ensures Onward(a, c)
  {
    GrowsTransitive(a, b, c);
    hide Grows;
  }

  lemma OnwardReflexive(a: Db)
    ensures Onward(a, a)
  {
  }

  lemma StoreMovesOn(db: Db, m: Msg, targets: seq<Uid>)
    ensures forall c :: Counter(db, c) <= Counter(StoreAndPush(db, m, targets).db, c)
  {
    hide Numbered, Pushes;
  }

  lemma HandleMovesOn(db: Db, m: Msg)
    ensures Onward(db, Handle(db, m).db)
  {
    HandleGrows(db, m);
    hide Grows, StoreAndPush;
    var m0 := Normalise(m);
    match m0.kind
    case SystemEvent => StoreMovesOn(db, m0, ActiveUids(Roster(db, m0.convId)));
    case Group => StoreMovesOn(db, m0, ActiveUids(Roster(db, m0.convId)));
    case Single =>
      match ValidateSingle(db, m0) {
        case Pass(d, m1) => StoreMovesOn(d, m1, []);
        case _ =>
      }
    case _ =>
  }

  lemma {:induction false} AllMoveOn(db: Db, ms: seq<Msg>, k: nat, n: nat)
    requires k <= n <= |ms|
    ensures Onward(HandleAll(db, ms[..k]).db, HandleAll(db, ms[..n]).db)
    ensures HandleAll(db, ms[..k]).pushes <= HandleAll(db, ms[..n]).pushes
    ensures !HandleAll(db, ms[..n]).failed ==> !HandleAll(db, ms[..k]).failed
  {
    hide *;
    if k == n {
      OnwardReflexive(HandleAll(db, ms[..k]).db);
    } else {
      AllMoveOn(db, ms, k, n - 1);
      HandleAllMore(db, ms, n - 1);
      var before := HandleAll(db, ms[..n - 1]);
      HandleMovesOn(before.db, ms[n - 1]);
      if !before.failed {
        OnwardTransitive(HandleAll(db, ms[..k]).db, before.db, HandleAll(db, ms[..n]).db);
      }
    }
  }

  /** The k-th of a list of frames is handled in tables that the ones before it have left, and its
      pushes directly follow theirs. */
  lemma {:induction false} HandledAt(db: Db, ms: seq<Msg>, k: nat)
    requires k < |ms| && !HandleAll(db, ms).failed
    ensures var before, all := HandleAll(db, ms[..k]), HandleAll(db, ms);
      var h := Handle(before.db, ms[k]);
      && !before.failed && h.status != Fault
      && Onward(db, before.db) && Onward(before.db, h.db) && Onward(h.db, all.db)
      && before.pushes + h.pushes == HandleAll(db, ms[..k + 1]).pushes <= all.pushes
      && h.db == HandleAll(db, ms[..k + 1]).db
  {
    hide Handle, Onward;
    assert ms[..|ms|] == ms;
    AllMoveOn(db, ms, k + 1, |ms|);
    AllMoveOn(db, ms, k, k + 1);
    AllMoveOn(db, ms, 0, k);
    HandleAllMore(db, ms, k);
    HandleMovesOn(HandleAll(db, ms[..k]).db, ms[k]);
  }

  /** A part stands in the list of all pushes from place s on. */
  predicate StandsAt(all: seq<Push>, s: nat, part: seq<Push>) {
    s + |part| <= |all| && all[s..s + |part|] == part
  }

  /** The pushes of one frame, all of them before those of another. */
  ghost predicate PushedBefore(all: seq<Push>, p: seq<Push>, q: seq<Push>) {
    exists s: nat, t: nat :: s + |p| <= t && StandsAt(all, s, p) && StandsAt(all, t, q)
  }

  lemma PrefixStands(before: seq<Push>, part: seq<Push>, all: seq<Push>, front: seq<Push>, back: seq<Push>)
    requires before + part <= all
    ensures StandsAt(front + all + back, |front| + |before|, part)
  {
    var s := |front| + |before|;
    assert all[|before|..|before| + |part|] == part;
    assert (front + all + back)[s..s + |part|] == all[|before|..|before| + |part|];
  }

  lemma {:induction false} HandledInOrder(db: Db, ms: seq<Msg>, i: nat, j: nat, front: seq<Push>, back: seq<Push>)
    requires i < j < |ms| && !HandleAll(db, ms).failed
    ensures var d, e := HandleAll(db, ms[..i]).db, HandleAll(db, ms[..j]).db;
      && Onward(Handle(d, ms[i]).db, e)
      && PushedBefore(front + HandleAll(db, ms).pushes + back, Handle(d, ms[i]).pushes, Handle(e, ms[j]).pushes)
  {
    hide Handle, Onward, StandsAt, HandleAll;
    HandledAt(db, ms, i);
    HandledAt(db, ms, j);
    AllMoveOn(db, ms, i + 1, j);
    var a, b, all := HandleAll(db, ms[..i]), HandleAll(db, ms[..j]), HandleAll(db, ms).pushes;
    PrefixStands(a.pushes, Handle(a.db, ms[i]).pushes, all, front, back);
    PrefixStands(b.pushes, Handle(b.db, ms[j]).pushes, all, front, back);
  }

  // ---------------------------------------------------------------- group and event frames

  /** A group message that passes the checks, or the envelope of an event. */
  predicate Taken(db: Db, m: Msg) {
    (m.kind == Group && GroupAccepts(db, m)) || (m.kind == SystemEvent && m.id != NoId && m.convId != "")
  }

  /** The pushes a stored frame is due: its row, to every active member that is online. */
  function PushesOfRow(groups: Db, db: Db, m: Msg): seq<Push>
    requires AssignId(m).id in db.messages
  {
    var row := db.messages[AssignId(m).id];
    Fanout(groups, AssignId(m).(content := row.content), row.seqNo, ActiveUids(Roster(groups, m.convId)))
  }

  predicate SameGroups(a: Db, b: Db) {
    b.groups == a.groups && b.roster == a.roster && b.online == a.online
  }

  lemma {:induction false} SameFanout(a: Db, b: Db, m: Msg, n: int, targets: seq<Uid>)
    requires a.online == b.online
    ensures Fanout(a, m, n, targets) == Fanout(b, m, n, targets)
  {
    if targets != [] {
      SameFanout(a, b, m, n, targets[..|targets| - 1]);
    }
  }

  /** What is stored of a new frame: the next number of its conversation. */
  predicate StoredNext(a: Db, b: Db, x: Msg) {
    && x.id in b.messages
    && var n := Counter(a, x.convId) + 1;
       b.messages[x.id] == Row(x.convId, n, x.fromUid, x.kind, x.content) && Counter(b, x.convId) == n
  }

  lemma {:induction false} TakenIsStored(db: Db, m: Msg, targets: seq<Uid>)
    requires StoreAndPush(db, m, targets).status != Fault && m.kind in {Group, SystemEvent}
    ensures var h, x := StoreAndPush(db, m, targets), AssignId(m);
      && x.id in h.db.messages
      && h.pushes == Fanout(h.db, x.(content := h.db.messages[x.id].content), h.db.messages[x.id].seqNo, targets)
      && (x.id !in db.messages ==> StoredNext(db, h.db, x))
  {
    hide Fanout, Numbered;
    var x := AssignId(m);
    if x.id !in db.messages {
      assert x.(content := x.content) == x;
    }
  }

  lemma TakenIsHandled(groups: Db, db: Db, m: Msg)
    requires SameGroups(groups, db) && Taken(groups, m) && Handle(db, m).status != Fault
    ensures var h, x := Handle(db, m), AssignId(m);
      && x.id in h.db.messages
      && h.pushes == PushesOfRow(groups, h.db, m)
      && (x.id !in db.messages ==> StoredNext(db, h.db, x))
  {
    hide StoreAndPush, Fanout, ActiveUids, ActiveRole, StoredNext;
    var targets := ActiveUids(Roster(groups, m.convId));
    TakenIsStored(db, m, targets);
    HandleGrows(db, m);
    var h, x := Handle(db, m), AssignId(m);
    var row := h.db.messages[x.id];
    SameFanout(groups, h.db, x.(content := row.content), row.seqNo, targets);
  }

  /** A frame that is not taken leaves everything as it is; one that is adds no row but its own. */
  lemma OtherAddsOwn(groups: Db, db: Db, m: Msg)
    requires SameGroups(groups, db) && m.kind !in {Unset, Single}
    ensures Handle(db, m).db.messages.Keys <= db.messages.Keys + if Taken(groups, m) then {AssignId(m).id} else {}
  {
    HandleAddsOwnRow(db, m);
    hide StoreAndPush, ActiveUids, ActiveRole;
  }

  lemma {:induction false} OthersMiss(groups: Db, db: Db, ms: seq<Msg>, id: Id)
    requires SameGroups(groups, db) && id !in db.messages
    requires forall m :: m in ms ==> m.kind !in {Unset, Single} && (Taken(groups, m) ==> AssignId(m).id != id)
    ensures id !in HandleAll(db, ms).db.messages
  {
    if ms != [] {
      hide Handle, Taken, AssignId;
      var k := |ms| - 1;
      OthersMiss(groups, db, ms[..k], id);
      var before := HandleAll(db, ms[..k]);
      assert ms[..|ms|] == ms;
      AllMoveOn(db, ms, 0, k);
      OtherAddsOwn(groups, before.db, ms[k]);
    }
  }

  // ---------------------------------------------------------------- the single-chat part of a turn

  lemma {:induction false} EarlyKeepsGroups(db: Db, ms: seq<Msg>)
    ensures SameGroups(db, RunEarly(db, ms).db)
  {
    hide Handle, IsEarly, Prepare;
    if ms != [] {
      var k := |ms| - 1;
      EarlyKeepsGroups(db, ms[..k]);
      HandleGrows(RunEarly(db, ms[..k]).db, ms[k]);
    }
  }

  lemma {:induction false} AppendEachKeepsGroups(db: Db, ms: seq<Msg>)
    ensures SameGroups(db, AppendEach(db, ms))
  {
    if ms != [] {
      AppendEachKeepsGroups(db, ms[..|ms| - 1]);
    }
  }

  /** The tables and the pushes when the single-chat frames of a turn have been handled, by the batched
      path or, failing that, by the slow one. */
  function AfterSingles(db: Db, ms: seq<Msg>): Ran {
    var b := HandleBatch(db, ms);
    var slow := if b.status == Fallback then HandleAll(b.db, b.msgs) else Ran(b.db, [], b.status == Failed);
    Ran(slow.db, b.pushes + slow.pushes, slow.failed)
  }

  lemma {:induction false} NoneHandled(db: Db)
    ensures HandleAll(db, []) == Ran(db, [], false)
  {
  }

  lemma SinglesKeepGroups(db: Db, ms: seq<Msg>)
    ensures SameGroups(db, AfterSingles(db, ms).db)
  {
    hide RunEarly, Rest, Firsts, Unknown, Known, HandleAll, AppendEach, UsersExist, ConvsExist, SomeNumberTaken;
    var e := RunEarly(db, ms);
    EarlyKeepsGroups(db, ms);
    AppendEachKeepsGroups(e.db, Unknown(e.db, Firsts(Rest(db, ms))));
    var b := HandleBatch(db, ms);
    assert b.msgs[..0] == [] && b.msgs[..|b.msgs|] == b.msgs;
    AllMoveOn(b.db, b.msgs, 0, |b.msgs|);
    NoneHandled(b.db);
  }

  lemma {:induction false} TurnInTwo(db: Db, frames: seq<Option<Msg>>)
    requires !Consume(db, frames).failed
    ensures var s := AfterSingles(db, Singles(frames));
      var rest := HandleAll(s.db, Others(frames));
      !s.failed && !rest.failed && Consume(db, frames) == Ran(rest.db, s.pushes + rest.pushes, false)
  {
    hide HandleBatch, HandleAll, Singles, Others;
  }

  // ---------------------------------------------------------------- the order of group messages

  /** The frame is not stored when its turn comes: not before the turn, not by one of its single-chat
      frames, not by an earlier frame with the same id. */
  predicate IsNew(db: Db, frames: seq<Option<Msg>>, i: nat)
    requires i < |frames| && frames[i].Some?
  {
    && AssignId(frames[i].value).id !in AfterSingles(db, Singles(frames)).db.messages
    && (forall k :: 0 <= k < i && OfSort(frames[k], false) && Taken(db, frames[k].value) ==>
          AssignId(frames[k].value).id != AssignId(frames[i].value).id)
  }

  /** Where the turn handles the i-th frame, and in which tables. */
  lemma TurnHandles(db: Db, frames: seq<Option<Msg>>, i: nat) returns (at: Db, h: Handled)
    requires !Consume(db, frames).failed && i < |frames| && OfSort(frames[i], false) && Taken(db, frames[i].value)
    ensures var d, ms, k := AfterSingles(db, Singles(frames)).db, Others(frames), HowMany(frames[..i], false);
      && k < |ms| && ms[k] == frames[i].value && at == HandleAll(d, ms[..k]).db && h == Handle(at, ms[k])
    ensures var m, x := frames[i].value, AssignId(frames[i].value);
      && x.id in h.db.messages && h.pushes == PushesOfRow(db, h.db, m)
      && Onward(h.db, Consume(db, frames).db)
      && (IsNew(db, frames, i) ==> StoredNext(at, h.db, x))
  {
    hide AfterSingles, Consume, Handle, HandleAll, Others, Taken, PushesOfRow, StoredNext;
    OthersInOrder(frames);
    OthersInOrder(frames[..i]);
    TurnInTwo(db, frames);
    SinglesKeepGroups(db, Singles(frames));
    var d, ms, k := AfterSingles(db, Singles(frames)).db, Others(frames), HowMany(frames[..i], false);
    HandledAt(d, ms, k);
    at := HandleAll(d, ms[..k]).db;
    h := Handle(at, ms[k]);
    TakenIsHandled(db, at, ms[k]);
    if IsNew(db, frames, i) {
      OthersComeFrom(frames, i);
      assert ms[..k] == Others(frames[..i]);
      OthersMiss(db, d, ms[..k], AssignId(frames[i].value).id);
    }
  }

  lemma RowStays(groups: Db, a: Db, b: Db, m: Msg)
    requires Onward(a, b) && AssignId(m).id in a.messages
    ensures AssignId(m).id in b.messages && b.messages[AssignId(m).id] == a.messages[AssignId(m).id]
    ensures PushesOfRow(groups, b, m) == PushesOfRow(groups, a, m)
  {
    hide Fanout, ActiveUids, AssignId;
  }

  lemma NumberedLater(a: Db, b: Db, d: Db, e: Db, x: Msg, y: Msg)
    requires StoredNext(a, b, x) && Onward(b, d) && StoredNext(d, e, y) && x.convId == y.convId
    ensures b.messages[x.id].seqNo < e.messages[y.id].seqNo
  {
    hide Grows;
  }

  /** In a turn that does not fail, of two group messages that pass the checks (or event envelopes),
      both have a row in the end, and the pushes of the earlier one's row, to every active member that
      is online, all stand before those of the later one. If they are new and belong to the same
      conversation, each row holds what the frame says and the earlier one has the smaller number. */
  lemma TurnKeepsOrder(db: Db, frames: seq<Option<Msg>>, i: nat, j: nat)
    requires !Consume(db, frames).failed && i < j < |frames|
    requires OfSort(frames[i], false) && Taken(db, frames[i].value)
    requires OfSort(frames[j], false) && Taken(db, frames[j].value)
    ensures var c, m, w := Consume(db, frames), frames[i].value, frames[j].value;
      var x, y := AssignId(m), AssignId(w);
      && x.id in c.db.messages && y.id in c.db.messages
      && PushedBefore(c.pushes, PushesOfRow(db, c.db, m), PushesOfRow(db, c.db, w))
      && (IsNew(db, frames, i) ==> var row := c.db.messages[x.id];
            row == Row(x.convId, row.seqNo, x.fromUid, x.kind, x.content))
      && (IsNew(db, frames, i) && IsNew(db, frames, j) && x.convId == y.convId ==>
            c.db.messages[x.id].seqNo < c.db.messages[y.id].seqNo)
  {
    hide AfterSingles, Consume, Handle, HandleAll, Others, Taken, PushesOfRow, IsNew, Onward, PushedBefore;
    var c, m, w := Consume(db, frames), frames[i].value, frames[j].value;
    var a, h := TurnHandles(db, frames, i);
    var b, t := TurnHandles(db, frames, j);
    RowStays(db, h.db, c.db, m);
    RowStays(db, t.db, c.db, w);
    TurnInTwo(db, frames);
    Overtaken(frames, false, i, j);
    var s, ms := AfterSingles(db, Singles(frames)), Others(frames);
    HandledInOrder(s.db, ms, HowMany(frames[..i], false), HowMany(frames[..j], false), s.pushes, []);
    assert s.pushes + HandleAll(s.db, ms).pushes + [] == c.pushes;
    if IsNew(db, frames, i) && IsNew(db, frames, j) && m.convId == w.convId {
      NumberedLater(a, h.db, b, t.db, AssignId(m), AssignId(w));
    }
  }

  lemma MemberIsPushed(db: Db, d: Db, m: Msg, u: Uid)
    requires GroupInv(db) && m.convId in db.groups && (m.convId, u) in db.convMembers && u in db.online
    requires AssignId(m).id in d.messages
    ensures exists k :: 0 <= k < |PushesOfRow(db, d, m)| && IsRowPush(d, PushesOfRow(db, d, m)[k], AssignId(m).id, u)
  {
    hide Keyed, ActiveUids, ActiveRole, Fanout;
    assert GroupOk(db, m.convId);
    var row, targets := d.messages[AssignId(m).id], ActiveUids(Roster(db, m.convId));
    MembersAreActive(db, m.convId, u);
    ActiveUidsDistinct(Roster(db, m.convId));
    FanoutReaches(db, AssignId(m).(content := row.content), row.seqNo, targets);
    var p :| p in PushesOfRow(db, d, m) && p.toUid == u;
    var k :| 0 <= k < |PushesOfRow(db, d, m)| && PushesOfRow(db, d, m)[k] == p;
    assert IsRowPush(d, PushesOfRow(db, d, m)[k], AssignId(m).id, u);
  }

  predicate IsRowPush(db: Db, p: Push, id: Id, u: Uid) {
    p.id == id && p.toUid == u && id in db.messages && p.seqNo == db.messages[id].seqNo && p.content == db.messages[id].content
  }

  /** What a member of both groups sees of it: he is online, and hears of the earlier message before he
      hears of the later one. */
  lemma MemberHearsInOrder(db: Db, frames: seq<Option<Msg>>, i: nat, j: nat, u: Uid)
    requires GroupInv(db) && !Consume(db, frames).failed && i < j < |frames| && u in db.online
    requires OfSort(frames[i], false) && Taken(db, frames[i].value) && frames[i].value.convId in db.groups
    requires OfSort(frames[j], false) && Taken(db, frames[j].value) && frames[j].value.convId in db.groups
    requires (frames[i].value.convId, u) in db.convMembers && (frames[j].value.convId, u) in db.convMembers
    ensures var c := Consume(db, frames);
      exists s, t :: 0 <= s < t < |c.pushes| && IsRowPush(c.db, c.pushes[s], AssignId(frames[i].value).id, u)
        && IsRowPush(c.db, c.pushes[t], AssignId(frames[j].value).id, u)
  {
    hide Consume, Taken, PushesOfRow, IsNew, GroupInv, IsRowPush, AssignId;
    var c, m, w := Consume(db, frames), frames[i].value, frames[j].value;
    TurnKeepsOrder(db, frames, i, j);
    MemberIsPushed(db, c.db, m, u);
    MemberIsPushed(db, c.db, w, u);
    var p, q := PushesOfRow(db, c.db, m), PushesOfRow(db, c.db, w);
    var s: nat, t: nat :| s + |p| <= t && StandsAt(c.pushes, s, p) && StandsAt(c.pushes, t, q);
    var k :| 0 <= k < |p| && IsRowPush(c.db, p[k], AssignId(m).id, u);
    var l :| 0 <= l < |q| && IsRowPush(c.db, q[l], AssignId(w).id, u);
    assert c.pushes[s..s + |p|][k] == c.pushes[s + k] && c.pushes[t..t + |q|][l] == c.pushes[t + l];
  }
}
