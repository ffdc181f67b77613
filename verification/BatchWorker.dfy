// The batched path as the program runs it: lists of pointers into the batch, maps filled in loops,
// two array-building passes and three bulk statements in one transaction. Proved against BatchSpec.
module BatchWorker {
  import opened Wrappers
  import opened Chat
  import opened Tables
  import opened PersistSpec
  import opened BatchSpec
  import opened BatchBulk
  import opened PersistWorker

  // ---------------------------------------------------------------- lists of pointers

  /** The positions of the early frames among the first n, and of the others. */
  function EarlyAt(db: Db, ms: seq<Msg>, n: nat): seq<nat>
    requires n <= |ms|
  {
    if n == 0 then [] else EarlyAt(db, ms, n - 1) + if IsEarly(db, ms[n - 1]) then [n - 1] else []
  }

  function LateAt(db: Db, ms: seq<Msg>, n: nat): seq<nat>
    requires n <= |ms|
  {
    if n == 0 then [] else LateAt(db, ms, n - 1) + if IsEarly(db, ms[n - 1]) then [] else [n - 1]
  }

  predicate Ascending(s: seq<nat>, n: nat) {
    && (forall a :: 0 <= a < |s| ==> s[a] < n)
    && (forall a, b :: 0 <= a < b < |s| ==> s[a] < s[b])
  }

  lemma {:induction false} EarlyAtSound(db: Db, ms: seq<Msg>, n: nat)
    requires n <= |ms|
    ensures Ascending(EarlyAt(db, ms, n), n)
    ensures forall a :: 0 <= a < |EarlyAt(db, ms, n)| ==> IsEarly(db, ms[EarlyAt(db, ms, n)[a]])
  {
    hide IsEarly;
    if n > 0 {
      EarlyAtSound(db, ms, n - 1);
      AscendingSnoc(EarlyAt(db, ms, n - 1), n - 1);
    }
  }

  lemma {:induction false} EarlyAtComplete(db: Db, ms: seq<Msg>, n: nat, i: nat)
    requires i < n <= |ms| && IsEarly(db, ms[i])
    ensures i in EarlyAt(db, ms, n)
  {
    hide IsEarly;
    if i < n - 1 {
      EarlyAtComplete(db, ms, n - 1, i);
    }
  }

  lemma {:induction false} LateAtSound(db: Db, ms: seq<Msg>, n: nat)
    requires n <= |ms|
    ensures Ascending(LateAt(db, ms, n), n)
    ensures forall a :: 0 <= a < |LateAt(db, ms, n)| ==> !IsEarly(db, ms[LateAt(db, ms, n)[a]])
  {
    hide IsEarly;
    if n > 0 {
      LateAtSound(db, ms, n - 1);
      AscendingSnoc(LateAt(db, ms, n - 1), n - 1);
    }
  }

  lemma AscendingSnoc(s: seq<nat>, n: nat)
    requires Ascending(s, n)
    ensures Ascending(s, n + 1) && Ascending(s + [n], n + 1)
  {
  }

  lemma NotBetween(s: seq<nat>, n: nat, j: nat, i: nat)
    requires Ascending(s, n) && j <= |s|
    requires j > 0 ==> s[j - 1] < i
    requires j < |s| ==> i < s[j]
    ensures i !in s
  {
    forall x | 0 <= x < |s|
      ensures s[x] != i
    {
    }
  }

  function Prepared(db: Db, ms: seq<Msg>, at: seq<nat>): seq<Msg>
    requires forall j :: 0 <= j < |at| ==> at[j] < |ms|
  {
    if at == [] then []
    else Prepared(db, ms, at[..|at| - 1]) + [Prepare(db, ms[at[|at| - 1]])]
  }

  lemma {:induction false} PreparedSnoc(db: Db, ms: seq<Msg>, at: seq<nat>, i: nat)
    requires i < |ms| && forall j :: 0 <= j < |at| ==> at[j] < |ms|
    ensures Prepared(db, ms, at + [i]) == Prepared(db, ms, at) + [Prepare(db, ms[i])]
  {
    assert (at + [i])[..|at|] == at;
  }

  lemma {:induction false} RestPrefix(db: Db, ms: seq<Msg>, n: nat)
    requires 0 < n <= |ms|
    ensures Rest(db, ms[..n]) ==
      if IsEarly(db, ms[n - 1]) then Rest(db, ms[..n - 1]) else Rest(db, ms[..n - 1]) + [Prepare(db, ms[n - 1])]
  {
    hide IsEarly, Prepare;
    assert ms[..n][..n - 1] == ms[..n - 1];
  }

  lemma {:induction false} PreparedIsRest(db: Db, ms: seq<Msg>, n: nat)
    requires n <= |ms| && Ascending(LateAt(db, ms, n), n)
    ensures Prepared(db, ms, LateAt(db, ms, n)) == Rest(db, ms[..n])
  {
    hide IsEarly, Prepare, Prepared, Rest;
    if n > 0 {
      LateAtSound(db, ms, n - 1);
      PreparedIsRest(db, ms, n - 1);
      RestPrefix(db, ms, n);
      PreparedSnoc(db, ms, LateAt(db, ms, n - 1), n - 1);
      assert IsEarly(db, ms[n - 1]) ==> LateAt(db, ms, n) == LateAt(db, ms, n - 1);
    } else {
      PreparedNone(db, ms);
    }
  }

  lemma {:induction false} PreparedNone(db: Db, ms: seq<Msg>)
    ensures Prepared(db, ms, []) == [] == Rest(db, ms[..0])
  {
  }

  // ---------------------------------------------------------------- resolution

  ghost predicate AllResolved(db: Db, ms: seq<Msg>, now: seq<Msg>) {
    |now| == |ms| && forall i :: 0 <= i < |ms| ==> now[i] == ResolveOne(db, ms[i])
  }

  /** One query for the conversations of all frames that name none; frames it does not find stay
      unresolved. */
  method ResolveBatch(w: Worker, msgs: array<Msg>) returns (late: seq<nat>, early: seq<nat>)
    modifies msgs
    ensures AllResolved(w.store.db, old(msgs[..]), msgs[..])
    ensures late == LateAt(w.store.db, old(msgs[..]), msgs.Length)
    ensures early == EarlyAt(w.store.db, old(msgs[..]), msgs.Length)
  {
    ghost var ms := msgs[..];
    ghost var db := w.store.db;
    var needed: set<string> := {};
    for i := 0 to msgs.Length
      invariant forall j :: 0 <= j < i && ms[j].convId == "" ==> SingleKey(ms[j].fromUid, ms[j].toUid) in needed
      invariant msgs[..] == ms
    {
      if msgs[i].convId == "" {
        needed := needed + {SingleKey(msgs[i].fromUid, msgs[i].toUid)};
      }
    }
    var found := map k | k in needed && k in w.store.db.singles :: w.store.db.singles[k];
    late, early := [], [];
    for i := 0 to msgs.Length
      invariant forall j :: 0 <= j < i ==> msgs[j] == ResolveOne(db, ms[j])
      invariant forall j :: i <= j < msgs.Length ==> msgs[j] == ms[j]
      invariant late == LateAt(db, ms, i) && early == EarlyAt(db, ms, i)
      invariant w.store.db == db
    {
      var m := msgs[i];
      var key := SingleKey(m.fromUid, m.toUid);
      if m.convId != "" {
        late := late + [i];
      } else if key in found {
        msgs[i] := m.(convId := found[key]);
        late := late + [i];
      } else {
        early := early + [i];
      }
    }
  }

  // ---------------------------------------------------------------- early frames

  lemma {:induction false} NoEarlyBetween(db: Db, ms: seq<Msg>, a: nat, b: nat)
    requires a <= b <= |ms| && !RunEarly(db, ms[..a]).failed
    requires forall i :: a <= i < b ==> !IsEarly(db, ms[i])
    ensures var e, f := RunEarly(db, ms[..a]), RunEarly(db, ms[..b]);
      && f.db == e.db && f.pushes == e.pushes && !f.failed
      && f.msgs[..a] == e.msgs
      && forall i :: a <= i < b ==> f.msgs[i] == Prepare(db, ms[i])
  {
    hide RunEarly, Handle, Prepare, IsEarly;
    if a < b {
      NoEarlyBetween(db, ms, a, b - 1);
      RunEarlyMore(db, ms, b - 1);
    } else {
      assert RunEarly(db, ms[..a]).msgs[..a] == RunEarly(db, ms[..a]).msgs;
    }
  }

  /** What the batch holds when the early frames before position k have been handled. */
  ghost predicate EarlyDone(db: Db, ms: seq<Msg>, k: nat, now: seq<Msg>)
    requires k <= |ms|
  {
    && |now| == |ms|
    && (forall i :: 0 <= i < k && IsEarly(db, ms[i]) ==> now[i] == RunEarly(db, ms[..k]).msgs[i])
    && (forall i :: 0 <= i < |ms| && (i >= k || !IsEarly(db, ms[i])) ==> now[i] == ResolveOne(db, ms[i]))
  }

  /** The list position that the j-th early frame has, or the end. */
  function Upto(early: seq<nat>, j: nat, n: nat): nat
    requires j <= |early|
  {
    if j < |early| then early[j] else n
  }

  lemma {:induction false} GapIsLate(db: Db, ms: seq<Msg>, j: nat)
    requires j < |EarlyAt(db, ms, |ms|)|
    ensures var early := EarlyAt(db, ms, |ms|);
      var a, b := early[j], Upto(early, j + 1, |ms|);
      a < b <= |ms| && IsEarly(db, ms[a]) && forall i :: a < i < b ==> !IsEarly(db, ms[i])
  {
    EarlyAtSound(db, ms, |ms|);
    var early := EarlyAt(db, ms, |ms|);
    var a, b := early[j], Upto(early, j + 1, |ms|);
    forall i | a < i < b
      ensures !IsEarly(db, ms[i])
    {
      NotBetween(early, |ms|, j + 1, i);
      if IsEarly(db, ms[i]) { EarlyAtComplete(db, ms, |ms|, i); }
    }
  }

  lemma {:induction false} StartIsLate(db: Db, ms: seq<Msg>)
    ensures var early := EarlyAt(db, ms, |ms|);
      var a := Upto(early, 0, |ms|);
      && a <= |ms| && (forall i :: 0 <= i < a ==> !IsEarly(db, ms[i]))
      && RunEarly(db, ms[..a]).db == db && RunEarly(db, ms[..a]).pushes == [] && !RunEarly(db, ms[..a]).failed
  {
    EarlyAtSound(db, ms, |ms|);
    var early := EarlyAt(db, ms, |ms|);
    forall i | 0 <= i < Upto(early, 0, |ms|)
      ensures !IsEarly(db, ms[i])
    {
      NotBetween(early, |ms|, 0, i);
      if IsEarly(db, ms[i]) { EarlyAtComplete(db, ms, |ms|, i); }
    }
    assert ms[..0] == [];
    NoEarlyBetween(db, ms, 0, Upto(early, 0, |ms|));
  }

  lemma {:induction false} EarlyStepDone(db: Db, ms: seq<Msg>, a: nat, b: nat, now: seq<Msg>)
    requires a < b <= |ms| && IsEarly(db, ms[a]) && forall i :: a < i < b ==> !IsEarly(db, ms[i])
    requires EarlyDone(db, ms, a, now) && !RunEarly(db, ms[..a]).failed
    ensures var e := RunEarly(db, ms[..a]);
      var h := Handle(e.db, now[a]);
      var f := RunEarly(db, ms[..a + 1]);
      && f == EarlyRun(h.db, e.msgs + [h.msg], e.pushes + h.pushes, h.status == Fault)
      && (h.status != Fault ==>
            (var g := RunEarly(db, ms[..b]);
             && g.db == h.db && g.pushes == e.pushes + h.pushes && !g.failed
             && EarlyDone(db, ms, b, now[a := h.msg])))
  {
    hide Handle, RunEarly;
    RunEarlyMore(db, ms, a);
    assert now[a] == ms[a];
    var e, f := RunEarly(db, ms[..a]), RunEarly(db, ms[..a + 1]);
    if !f.failed {
      NoEarlyBetween(db, ms, a + 1, b);
      var g := RunEarly(db, ms[..b]);
      forall i | 0 <= i < a
        ensures g.msgs[i] == e.msgs[i]
      {
        assert g.msgs[i] == g.msgs[..a + 1][i] == f.msgs[i] == e.msgs[i];
      }
      assert g.msgs[a] == g.msgs[..a + 1][a] == f.msgs[a];
    }
  }

  lemma {:induction false} FailureStays(db: Db, ms: seq<Msg>, a: nat, b: nat)
    requires a <= b <= |ms| && RunEarly(db, ms[..a]).failed
    ensures var e, f := RunEarly(db, ms[..a]), RunEarly(db, ms[..b]);
      f.failed && f.db == e.db && f.pushes == e.pushes
  {
    hide Handle;
    if a < b {
      FailureStays(db, ms, a, b - 1);
      assert ms[..b][..b - 1] == ms[..b - 1];
    }
  }

  /** The unresolved frames through the slow path, skipping poison and stopping at an error. */
  method HandleEarly(w: Worker, msgs: array<Msg>, early: seq<nat>, ghost db: Db, ghost ms: seq<Msg>)
    returns (failed: bool)
    requires w.Valid() && w.store.db == db && |ms| == msgs.Length && AllResolved(db, ms, msgs[..])
    requires early == EarlyAt(db, ms, |ms|)
    modifies w, w.store, msgs
    ensures w.Valid() && w.collecting == old(w.collecting) && (w.collecting ==> w.topic == old(w.topic))
    ensures var e := RunEarly(db, ms);
      && failed == e.failed && w.store.db == e.db && w.Emitted() == old(w.Emitted()) + e.pushes
    ensures !failed ==> EarlyDone(db, ms, |ms|, msgs[..])
  {
    hide RunEarly, Handle, IsEarly, ResolveOne, EarlyAt;
    failed := false;
    StartIsLate(db, ms);
    assert ms[..|ms|] == ms;
    for j := 0 to |early|
      invariant !failed && w.Valid() && w.collecting == old(w.collecting)
      invariant w.collecting ==> w.topic == old(w.topic)
      invariant Upto(early, j, |ms|) <= |ms|
      invariant !RunEarly(db, ms[..Upto(early, j, |ms|)]).failed
      invariant w.store.db == RunEarly(db, ms[..Upto(early, j, |ms|)]).db
      invariant w.Emitted() == old(w.Emitted()) + RunEarly(db, ms[..Upto(early, j, |ms|)]).pushes
      invariant EarlyDone(db, ms, Upto(early, j, |ms|), msgs[..])
    {
      GapIsLate(db, ms, j);
      EarlyStepDone(db, ms, early[j], Upto(early, j + 1, |ms|), msgs[..]);
      var status := w.HandleFrame(msgs, early[j]);
      if status == Fault {
        FailureStays(db, ms, early[j] + 1, |ms|);
        return true;
      }
    }
  }

  // ---------------------------------------------------------------- ids, dedup, replays

  /** Fill in the ids of the remaining frames and keep the first frame of every id. */
  method AssignIds(msgs: array<Msg>, late: seq<nat>, ghost db: Db, ghost ms: seq<Msg>)
    returns (unique: seq<Msg>)
    requires |ms| == msgs.Length && late == LateAt(db, ms, |ms|)
    requires EarlyDone(db, ms, |ms|, msgs[..])
    modifies msgs
    ensures unique == Firsts(Rest(db, ms))
    ensures msgs[..] == RunEarly(db, ms).msgs || RunEarly(db, ms).failed
  {
    hide RunEarly, IsEarly, ResolveOne, LateAt, Rest, Firsts, Ids, Prepared;
    LateAtSound(db, ms, |ms|);
    PreparedNone(db, ms);
    assert ms[..0] == [] && ms[..|ms|] == ms;
    unique := [];
    var seen: set<Id> := {};
    NothingKept();
    ghost var before := msgs[..];
    for j := 0 to |late|
      invariant unique == Firsts(Prepared(db, ms, late[..j])) && seen == Ids(Prepared(db, ms, late[..j]))
      invariant forall i :: 0 <= i < j ==> msgs[late[i]] == Prepare(db, ms[late[i]])
      invariant forall i :: j <= i < |late| ==> msgs[late[i]] == before[late[i]]
      invariant forall i :: 0 <= i < |ms| && IsEarly(db, ms[i]) ==> msgs[i] == before[i]
    {
      assert late[..j + 1] == late[..j] + [late[j]];
      PreparedSnoc(db, ms, late[..j], late[j]);
      var m := msgs[late[j]];
      assert m == ResolveOne(db, ms[late[j]]);
      if m.id == NoId {
        m := m.(id := DeriveId(m));
        msgs[late[j]] := m;
      }
      FirstsSnoc(Prepared(db, ms, late[..j]), m);
      if m.id !in seen {
        seen := seen + {m.id};
        unique := unique + [m];
      }
    }
    assert late[..|late|] == late;
    PreparedIsRest(db, ms, |ms|);
    if !RunEarly(db, ms).failed {
      forall i | 0 <= i < |ms|
        ensures msgs[i] == RunEarly(db, ms).msgs[i]
      {
        if !IsEarly(db, ms[i]) {
          LateAtComplete(db, ms, |ms|, i);
          RunEarlyLate(db, ms, |ms|, i);
        }
      }
    }
  }

  lemma NothingKept()
    ensures Firsts([]) == [] && Ids([]) == {}
  {
  }

  lemma {:induction false} LateAtComplete(db: Db, ms: seq<Msg>, n: nat, i: nat)
    requires i < n <= |ms| && !IsEarly(db, ms[i])
    ensures i in LateAt(db, ms, n)
  {
    hide IsEarly;
    if i < n - 1 {
      LateAtComplete(db, ms, n - 1, i);
    }
  }

  lemma {:induction false} RunEarlyLate(db: Db, ms: seq<Msg>, n: nat, i: nat)
    requires i < n <= |ms| && !IsEarly(db, ms[i])
    ensures RunEarly(db, ms[..n]).msgs[i] == Prepare(db, ms[i])
  {
    hide IsEarly, Prepare, Handle;
    assert ms[..n][..n - 1] == ms[..n - 1];
    if i < n - 1 {
      RunEarlyLate(db, ms, n - 1, i);
    }
  }

  /** One query for the ids already stored, which parts replays from new frames. */
  method SplitReplays(w: Worker, unique: seq<Msg>)
    returns (replays: seq<Msg>, news: seq<Msg>, stored: map<Id, Row>)
    ensures replays == Known(w.store.db, unique) && news == Unknown(w.store.db, unique)
    ensures forall m :: m in replays ==>
      m.id in stored && m.id in w.store.db.messages && stored[m.id] == w.store.db.messages[m.id]
  {
    var ids: set<Id> := {};
    for i := 0 to |unique|
      invariant forall j :: 0 <= j < i ==> unique[j].id in ids
    {
      ids := ids + {unique[i].id};
    }
    stored := map id | id in ids && id in w.store.db.messages :: w.store.db.messages[id];
    replays, news := Part(w.store.db, unique, stored);
  }

  method Part(db: Db, unique: seq<Msg>, stored: map<Id, Row>) returns (replays: seq<Msg>, news: seq<Msg>)
    requires forall m :: m in unique ==> (m.id in stored <==> m.id in db.messages)
    ensures replays == Known(db, unique) && news == Unknown(db, unique)
    ensures forall m :: m in replays ==> m.id in stored
  {
    replays, news := [], [];
    assert unique[..0] == [] && Known(db, []) == [] && Unknown(db, []) == [];
    hide *;
    for i := 0 to |unique|
      invariant replays == Known(db, unique[..i]) && news == Unknown(db, unique[..i])
      invariant forall m :: m in replays ==> m.id in stored
    {
      assert unique[..i + 1] == unique[..i] + [unique[i]];
      UnknownSnoc(db, unique[..i], unique[i]);
      if unique[i].id in stored {
        replays := replays + [unique[i]];
      } else {
        news := news + [unique[i]];
      }
    }
    assert unique[..|unique|] == unique;
  }

  /** Replays are pushed again with the stored number and content. */
  method PushReplays(w: Worker, replays: seq<Msg>, stored: map<Id, Row>, ghost db: Db)
    requires w.Valid()
    requires forall m :: m in replays ==> m.id in stored && m.id in db.messages && stored[m.id] == db.messages[m.id]
    modifies w
    ensures w.Valid() && w.collecting == old(w.collecting) && (w.collecting ==> w.topic == old(w.topic))
    ensures w.Emitted() == old(w.Emitted()) + ReplayPushes(db, replays)
  {
    assert replays[..|replays|] == replays;
    for i := 0 to |replays|
      invariant w.Valid() && w.collecting == old(w.collecting) && (w.collecting ==> w.topic == old(w.topic))
      invariant w.Emitted() == old(w.Emitted()) + ReplayPushes(db, replays[..i])
    {
      assert replays[..i + 1][..i] == replays[..i];
      assert replays[i] in replays;
      var row := stored[replays[i].id];
      var m := replays[i].(content := row.content);
      w.ProducePush(m, row.seqNo, m.toUid, false);
    }
  }

  // ---------------------------------------------------------------- the guards

  lemma {:induction false} SubsetByCount<T>(a: set<T>, b: set<T>)
    ensures |a * b| <= |a|
    ensures |a * b| == |a| <==> a <= b
  {
    assert a == a * b + (a - b);
    assert |a| == |a * b| + |a - b|;
    if a <= b {
      assert a * b == a;
    }
  }

  /** `counts` says how many frames each conversation has. */
  ghost predicate Counted(ms: seq<Msg>, counts: map<ConvId, int>) {
    && (forall c :: c in counts <==> Count(ms, c) > 0)
    && (forall c :: c in counts ==> counts[c] == Count(ms, c))
  }

  lemma CountedSnoc(ms: seq<Msg>, p: Msg, counts: map<ConvId, int>)
    requires Counted(ms, counts)
    ensures Counted(ms + [p], counts[p.convId := (if p.convId in counts then counts[p.convId] else 0) + 1])
  {
    forall x {
      CountSnoc(ms, p, x);
    }
    hide Count;
  }

  lemma {:induction false} CountedMeans(ms: seq<Msg>, c: ConvId)
    ensures Count(ms, c) > 0 <==> exists j :: 0 <= j < |ms| && ms[j].convId == c
  {
    if ms != [] {
      var k := |ms| - 1;
      CountedMeans(ms[..k], c);
      if Count(ms[..k], c) > 0 {
        var j :| 0 <= j < k && ms[..k][j].convId == c;
        assert ms[j].convId == c;
      }
      if exists j :: 0 <= j < |ms| && ms[j].convId == c {
        var j :| 0 <= j < |ms| && ms[j].convId == c;
        assert j < k ==> ms[..k][j].convId == c;
      }
    }
  }

  function UsersOf(ms: seq<Msg>): set<Uid> {
    (set m | m in ms :: m.fromUid) + (set m | m in ms :: m.toUid)
  }

  lemma UsersSnoc(ms: seq<Msg>, p: Msg)
    ensures UsersOf(ms + [p]) == UsersOf(ms) + {p.fromUid, p.toUid}
  {
    var all := ms + [p];
    assert all[|ms|] == p && p in all;
    forall m | m in ms
      ensures m in all
    {
    }
  }

  /** Both guards as questions about sets. */
  lemma GuardsMean(db: Db, news: seq<Msg>, counts: map<ConvId, int>)
    requires Counted(news, counts)
    ensures UsersExist(db, news) <==> UsersOf(news) <= db.users
    ensures ConvsExist(db, news) <==> counts.Keys <= db.convs.Keys
  {
    UsersMean(db, news);
    forall c {
      CountedMeans(news, c);
    }
    hide Count, UsersOf, UsersExist;
    if counts.Keys <= db.convs.Keys {
      forall m | m in news
        ensures m.convId in db.convs
      {
        var j :| 0 <= j < |news| && news[j] == m;
        assert news[j].convId == m.convId;
      }
    }
  }

  lemma UsersMean(db: Db, news: seq<Msg>)
    ensures UsersExist(db, news) <==> UsersOf(news) <= db.users
  {
    if UsersOf(news) <= db.users {
      forall m | m in news
        ensures m.fromUid in db.users && m.toUid in db.users
      {
        assert m.fromUid in UsersOf(news) && m.toUid in UsersOf(news);
      }
    }
  }

  /** The users and the conversations of the new frames. */
  method Gather(news: seq<Msg>) returns (uids: set<Uid>, counts: map<ConvId, int>)
    ensures uids == UsersOf(news) && Counted(news, counts)
  {
    hide Counted, UsersOf;
    uids := {};
    counts := map[];
    NothingCounted();
    assert news[..0] == [] && news[..|news|] == news;
    for i := 0 to |news|
      invariant uids == UsersOf(news[..i]) && Counted(news[..i], counts)
    {
      assert news[..i + 1] == news[..i] + [news[i]];
      UsersSnoc(news[..i], news[i]);
      var c := news[i].convId;
      CountedSnoc(news[..i], news[i], counts);
      uids := uids + {news[i].fromUid, news[i].toUid};
      counts := counts[c := (if c in counts then counts[c] else 0) + 1];
    }
  }

  lemma NothingCounted()
    ensures Counted([], map[]) && UsersOf([]) == {}
  {
  }

  /** Both counts of the guard against the sizes of the sets asked for. */
  method CheckGuards(w: Worker, news: seq<Msg>) returns (ok: bool, counts: map<ConvId, int>)
    ensures ok <==> UsersExist(w.store.db, news) && ConvsExist(w.store.db, news)
    ensures Counted(news, counts)
  {
    var uids;
    uids, counts := Gather(news);
    GuardsMean(w.store.db, news, counts);
    SubsetByCount(uids, w.store.db.users);
    SubsetByCount(counts.Keys, w.store.db.convs.Keys);
    hide *;
    var foundUsers := |uids * w.store.db.users|;
    if foundUsers != |uids| {
      return false, counts;
    }
    var foundConvs := |counts.Keys * w.store.db.convs.Keys|;
    ok := foundConvs == |counts.Keys|;
  }

  // ---------------------------------------------------------------- the bulk transaction

  /** Two parallel arrays from the map of counts, in whatever order the map is walked. */
  ghost predicate Listed(counts: map<ConvId, int>, convs: seq<ConvId>, deltas: seq<int>) {
    && |convs| == |deltas|
    && (forall i, j :: 0 <= i < j < |convs| ==> convs[i] != convs[j])
    && (forall i :: 0 <= i < |convs| ==> convs[i] in counts && deltas[i] == counts[convs[i]])
    && (forall c :: c in counts ==> c in convs)
  }

  method ListCounts(counts: map<ConvId, int>) returns (convs: seq<ConvId>, deltas: seq<int>)
    ensures Listed(counts, convs, deltas)
  {
    convs, deltas := [], [];
    var todo := counts.Keys;
    while todo != {}
      invariant todo <= counts.Keys && |convs| == |deltas|
      invariant forall i, j :: 0 <= i < j < |convs| ==> convs[i] != convs[j]
      invariant forall i :: 0 <= i < |convs| ==>
        convs[i] in counts && deltas[i] == counts[convs[i]] && convs[i] !in todo
      invariant forall c :: c in counts && c !in todo ==> c in convs
      decreases todo
    {
      var c :| c in todo;
      todo := todo - {c};
      convs, deltas := convs + [c], deltas + [counts[c]];
    }
  }

  /** The counters after the rows for `done`, and what the statement has given back for them. */
  ghost predicate Moved(counters: map<ConvId, int>, counts: map<ConvId, int>, done: set<ConvId>,
                        after: map<ConvId, int>, nextAfter: map<ConvId, int>) {
    && done <= counts.Keys && after.Keys == counters.Keys + done && nextAfter.Keys == done
    && (forall c :: c in after ==>
          after[c] == (if c in counters then counters[c] else 0) + if c in done then counts[c] else 0)
    && (forall c :: c in nextAfter ==> nextAfter[c] == after[c])
  }

  lemma MovedMore(counters: map<ConvId, int>, counts: map<ConvId, int>, done: set<ConvId>,
                  after: map<ConvId, int>, nextAfter: map<ConvId, int>, c: ConvId)
    requires Moved(counters, counts, done, after, nextAfter) && c in counts && c !in done
    ensures var n := if c in after then after[c] + counts[c] else counts[c];
      Moved(counters, counts, done + {c}, after[c := n], nextAfter[c := n])
  {
  }

  /** The multi-row upsert: each counter grows by its delta or starts at it, and the statement gives
      back every conversation with its new counter. */
  method BulkNextSeq(counters: map<ConvId, int>, convs: seq<ConvId>, deltas: seq<int>, ghost counts: map<ConvId, int>)
    returns (after: map<ConvId, int>, nextAfter: map<ConvId, int>)
    requires Listed(counts, convs, deltas)
    ensures forall c :: c in after <==> c in counters || c in counts
    ensures forall c :: c in after ==>
      after[c] == (if c in counters then counters[c] else 0) + if c in counts then counts[c] else 0
    ensures nextAfter.Keys == counts.Keys && forall c :: c in counts ==> nextAfter[c] == after[c]
  {
    after, nextAfter := counters, map[];
    ghost var done: set<ConvId> := {};
    for i := 0 to |convs|
      invariant forall j :: 0 <= j < i ==> convs[j] in done
      invariant forall j :: i <= j < |convs| ==> convs[j] !in done
      invariant Moved(counters, counts, done, after, nextAfter)
    {
      var c := convs[i];
      MovedMore(counters, counts, done, after, nextAfter, c);
      after := after[c := if c in after then after[c] + deltas[i] else deltas[i]];
      nextAfter := nextAfter[c := after[c]];
      done := done + {c};
    }
    assert done == counts.Keys;
  }

  /** The number of each frame: the counter after the batch, back by the size of the conversation's
      share, on by the frames of the conversation already numbered. */
  method AssignNumbers(news: seq<Msg>, nextAfter: map<ConvId, int>, counts: map<ConvId, int>, ghost db: Db)
    returns (numbers: seq<int>)
    requires Counted(news, counts) && nextAfter.Keys == counts.Keys
    requires forall c :: c in counts ==> nextAfter[c] == Counter(db, c) + counts[c]
    ensures |numbers| == |news| && forall i :: 0 <= i < |news| ==> numbers[i] == NumberOf(db, news, i)
  {
    numbers := [];
    var given: map<ConvId, int> := map[];
    NothingCounted();
    assert news[..0] == [];
    for i := 0 to |news|
      invariant |numbers| == i && forall j :: 0 <= j < i ==> numbers[j] == NumberOf(db, news, j)
      invariant Counted(news[..i], given)
    {
      var c := news[i].convId;
      CountedMeans(news, c);
      var done := if c in given then given[c] else 0;
      assert done == Count(news[..i], c);
      numbers := numbers + [nextAfter[c] - counts[c] + done + 1];
      assert news[..i + 1] == news[..i] + [news[i]];
      CountedSnoc(news[..i], news[i], given);
      hide Count, Counted;
      given := given[c := done + 1];
    }
  }

  /** The multi-row insert; a row whose id exists is left alone. */
  method InsertRows(messages: map<Id, Row>, news: seq<Msg>, numbers: seq<int>, ghost db: Db)
    returns (after: map<Id, Row>)
    requires messages == db.messages && |numbers| == |news| && DistinctIds(news)
    requires forall i :: 0 <= i < |news| ==> numbers[i] == NumberOf(db, news, i) && news[i].id !in db.messages
    ensures after == AddRows(db, news, |news|)
  {
    after := messages;
    for i := 0 to |news|
      invariant after == AddRows(db, news, i)
      invariant forall j :: i <= j < |news| ==> news[j].id !in after
    {
      var m := news[i];
      if m.id !in after {
        after := after[m.id := Row(m.convId, numbers[i], m.fromUid, m.kind, m.content)];
      }
    }
  }

  /** The multi-row update of last_seq. */
  method RaiseLastSeqs(rows: map<ConvId, Conversation>, convs: seq<ConvId>, nextAfter: map<ConvId, int>)
    returns (after: map<ConvId, Conversation>)
    requires forall i :: 0 <= i < |convs| ==> convs[i] in nextAfter
    requires forall i, j :: 0 <= i < j < |convs| ==> convs[i] != convs[j]
    ensures after.Keys == rows.Keys
    ensures forall c :: c in rows ==> after[c] == if c in convs then Raised(rows[c], nextAfter[c]) else rows[c]
  {
    after := rows;
    for i := 0 to |convs|
      invariant after.Keys == rows.Keys
      invariant forall c :: c in rows ==> after[c] == if c in convs[..i] then Raised(rows[c], nextAfter[c]) else rows[c]
    {
      var c := convs[i];
      assert c !in convs[..i] && convs[..i + 1] == convs[..i] + [c];
      if c in after && after[c].lastSeq < nextAfter[c] {
        after := after[c := after[c].(lastSeq := nextAfter[c])];
      }
    }
    assert convs[..|convs|] == convs;
  }

  /** The transaction: counters, rows and last_seq together, or nothing on a violation of
      UNIQUE(conv_id, seq). */
  method BulkTransaction(w: Worker, news: seq<Msg>, counts: map<ConvId, int>)
    returns (numbers: seq<int>, violated: bool)
    requires Counted(news, counts) && DistinctIds(news)
    requires forall m :: m in news ==> m.id !in w.store.db.messages
    modifies w.store
    ensures violated == SomeNumberTaken(old(w.store.db), news)
    ensures violated ==> w.store.db == old(w.store.db)
    ensures !violated ==> w.store.db == AppendEach(old(w.store.db), news)
    ensures |numbers| == |news| && forall i :: 0 <= i < |news| ==> numbers[i] == NumberOf(old(w.store.db), news, i)
  {
    hide AppendEach, AddRows, Append, Numbered;
    ghost var db := w.store.db;
    var tx := w.store.db;
    var convs, deltas := ListCounts(counts);
    var counters, nextAfter := BulkNextSeq(tx.counters, convs, deltas, counts);
    numbers := AssignNumbers(news, nextAfter, counts, db);
    if SomeNumberTaken(tx, news) {
      return numbers, true;
    }
    var messages := InsertRows(tx.messages, news, numbers, db);
    var rows := RaiseLastSeqs(tx.convs, convs, nextAfter);
    tx := tx.(counters := counters, messages := messages, convs := rows);
    assert CountersMoved(db, news, counters) by { BulkCounters(db, news, counts, counters); }
    assert LastSeqsRaised(db, news, rows) by {
      hide Count;
      assert forall c :: c in db.convs && c in counts ==> c in convs;
    }
    BulkIsAppendEach(db, news, tx);
    w.store.db := tx;
    violated := false;
  }

  lemma BulkCounters(db: Db, news: seq<Msg>, counts: map<ConvId, int>, after: map<ConvId, int>)
    requires Counted(news, counts)
    requires forall c :: c in after <==> c in db.counters || c in counts
    requires forall c :: c in after ==> after[c] == Counter(db, c) + if c in counts then counts[c] else 0
    ensures CountersMoved(db, news, after)
  {
    hide Count;
  }

  method PushNews(w: Worker, news: seq<Msg>, numbers: seq<int>, ghost db: Db)
    requires w.Valid() && |numbers| == |news|
    requires forall i :: 0 <= i < |news| ==> numbers[i] == NumberOf(db, news, i)
    modifies w
    ensures w.Valid() && w.collecting == old(w.collecting) && (w.collecting ==> w.topic == old(w.topic))
    ensures w.Emitted() == old(w.Emitted()) + FreshPushes(db, news, |news|)
  {
    hide NumberOf;
    for i := 0 to |news|
      invariant w.Valid() && w.collecting == old(w.collecting) && (w.collecting ==> w.topic == old(w.topic))
      invariant w.Emitted() == old(w.Emitted()) + FreshPushes(db, news, i)
    {
      w.ProducePush(news[i], numbers[i], news[i].toUid, false);
    }
  }

  /** Replays, guards, the transaction and the pushes, on the first frame of every id. */
  method StoreBatch(w: Worker, unique: seq<Msg>) returns (status: BatchStatus)
    requires w.Valid() && DistinctIds(unique)
    modifies w, w.store
    ensures w.Valid() && w.collecting == old(w.collecting) && (w.collecting ==> w.topic == old(w.topic))
    ensures var f := FinishBatch(old(w.store.db), unique);
      status == f.status && w.store.db == f.db && w.Emitted() == old(w.Emitted()) + f.pushes
  {
    hide Known, Unknown, AppendEach, UsersExist, ConvsExist, SomeNumberTaken, Counted, DistinctIds;
    ghost var db := w.store.db;
    var replays, news, stored := SplitReplays(w, unique);
    if |news| == 0 {
      PushReplays(w, replays, stored, db);
      return Done;
    }
    var ok, counts := CheckGuards(w, news);
    if !ok {
      return Fallback;
    }
    UnknownDistinct(db, unique);
    var numbers, violated := BulkTransaction(w, news, counts);
    if violated {
      return Failed;
    }
    PushNews(w, news, numbers, db);
    PushReplays(w, replays, stored, db);
    status := Done;
  }

  /** The batched path. */
  method HandleSingleBatch(w: Worker, msgs: array<Msg>) returns (status: BatchStatus)
    requires w.Valid()
    modifies w, w.store, msgs
    ensures w.Valid() && w.collecting == old(w.collecting) && (w.collecting ==> w.topic == old(w.topic))
    ensures var b := HandleBatch(old(w.store.db), old(msgs[..]));
      && status == b.status && w.store.db == b.db && w.Emitted() == old(w.Emitted()) + b.pushes
      && (status == Fallback ==> msgs[..] == b.msgs)
  {
    hide RunEarly, Rest, Firsts, FinishBatch, EarlyAt, LateAt, EarlyDone, AllResolved, DistinctIds;
    ghost var db, ms := w.store.db, msgs[..];
    var late, early := ResolveBatch(w, msgs);
    var failed := HandleEarly(w, msgs, early, db, ms);
    if failed {
      return Failed;
    }
    var unique := AssignIds(msgs, late, db, ms);
    FirstsDistinct(Rest(db, ms));
    status := StoreBatch(w, unique);
  }

  // ---------------------------------------------------------------- one turn of the consumer loop

  /** The frames one by one; false means an error that stops the batch. */
  method HandleEach(w: Worker, msgs: array<Msg>) returns (ok: bool)
    requires w.Valid()
    modifies w, w.store, msgs
    ensures w.Valid() && w.collecting == old(w.collecting) && (w.collecting ==> w.topic == old(w.topic))
    ensures var r := HandleAll(old(w.store.db), old(msgs[..]));
      ok == !r.failed && w.store.db == r.db && w.Emitted() == old(w.Emitted()) + r.pushes
  {
    hide Handle;
    ghost var db, ms := w.store.db, msgs[..];
    assert ms[..|ms|] == ms;
    for i := 0 to msgs.Length
      invariant w.Valid() && w.collecting == old(w.collecting) && (w.collecting ==> w.topic == old(w.topic))
      invariant forall j :: i <= j < msgs.Length ==> msgs[j] == ms[j]
      invariant !HandleAll(db, ms[..i]).failed && w.store.db == HandleAll(db, ms[..i]).db
      invariant w.Emitted() == old(w.Emitted()) + HandleAll(db, ms[..i]).pushes
    {
      assert ms[..i + 1][..i] == ms[..i];
      ghost var now := msgs[..];
      var status := w.HandleFrame(msgs, i);
      assert forall j :: i < j < msgs.Length ==> msgs[j] == msgs[..][j] == now[j];
      if status == Fault {
        FailedStays(db, ms, i + 1, |ms|);
        return false;
      }
    }
    ok := true;
  }

  lemma {:induction false} FailedStays(db: Db, ms: seq<Msg>, a: nat, b: nat)
    requires a <= b <= |ms| && HandleAll(db, ms[..a]).failed
    ensures HandleAll(db, ms[..b]) == HandleAll(db, ms[..a])
  {
    hide Handle;
    if a < b {
      FailedStays(db, ms, a, b - 1);
      assert ms[..b][..b - 1] == ms[..b - 1];
    }
  }

  /** One fetched batch: parse, batched path or slow path for the single-chat frames, slow path for the
      others, then write the pushes out and commit the offsets. A flush that fails after some records
      have reached the log, and a commit that fails, leave the offsets where they were. */
  method ConsumeBatch(w: Worker, frames: seq<Option<Msg>>, reached: Option<set<nat>>, commitFails: bool)
    returns (committed: bool)
    requires w.Valid() && !w.collecting
    modifies w, w.store
    ensures w.Valid() && !w.collecting
    ensures var r := Consume(old(w.store.db), frames);
      var flushed := r.pushes == [] || reached == None;
      && w.store.db == r.db
      && w.topic == old(w.topic) + (if flushed then r.pushes else Chosen(r.pushes, reached.value))
      && committed == (!r.failed && flushed && !commitFails)
  {
    hide HandleBatch, HandleAll, Singles, Others, Chosen;
    w.collecting := true;
    var singles, others := Sort(frames);
    var batch := new Msg[|singles|](i requires 0 <= i < |singles| => singles[i]);
    assert batch[..] == singles;
    var status := HandleSingleBatch(w, batch);
    var handled := status != Failed;
    if status == Fallback {
      handled := HandleEach(w, batch);
    }
    if handled {
      var rest := new Msg[|others|](i requires 0 <= i < |others| => others[i]);
      assert rest[..] == others;
      handled := HandleEach(w, rest);
    }
    ghost var r := Consume(old(w.store.db), frames);
    assert w.pending == r.pushes by { Behind(old(w.topic), w.pending, r.pushes); }
    var flushed := w.FlushPushes(reached);
    w.collecting := false;
    committed := flushed && handled && !commitFails;
  }

  lemma Behind(topic: seq<Push>, a: seq<Push>, b: seq<Push>)
    requires topic + a == topic + b
    ensures a == b
  {
    assert (topic + a)[|topic|..] == a && (topic + b)[|topic|..] == b;
  }

  /** Parse the batch: frames that do not parse are left out, the single-chat ones go one way. */
  method Sort(frames: seq<Option<Msg>>) returns (singles: seq<Msg>, others: seq<Msg>)
    ensures singles == Singles(frames) && others == Others(frames)
  {
    singles, others := [], [];
    assert frames[..0] == [] && frames[..|frames|] == frames;
    for i := 0 to |frames|
      invariant singles == Singles(frames[..i]) && others == Others(frames[..i])
    {
      assert frames[..i + 1][..i] == frames[..i];
      if frames[i].Some? {
        var m := frames[i].value;
        if m.kind == Unset {
          m := m.(kind := Single);
        }
        if m.kind == Single {
          singles := singles + [m];
        } else {
          others := others + [m];
        }
      }
    }
  }
}
