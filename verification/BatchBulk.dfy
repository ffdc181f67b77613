// The bulk transaction as a sequence of single appends.
module BatchBulk {
  import opened Chat
  import opened Tables
  import opened PersistSpec
  import opened BatchSpec

  // ---------------------------------------------------------------- first frames, replays and new frames

  lemma {:induction false} FirstsSnoc(ms: seq<Msg>, p: Msg)
    ensures Firsts(ms + [p]) == if p.id in Ids(ms) then Firsts(ms) else Firsts(ms) + [p]
    ensures Ids(ms + [p]) == Ids(ms) + {p.id}
  {
    assert (ms + [p])[..|ms|] == ms;
  }

  lemma {:induction false} UnknownSnoc(d: Db, ms: seq<Msg>, p: Msg)
    ensures Unknown(d, ms + [p]) == if p.id in d.messages then Unknown(d, ms) else Unknown(d, ms) + [p]
    ensures Known(d, ms + [p]) == if p.id in d.messages then Known(d, ms) + [p] else Known(d, ms)
    ensures AppendEach(d, ms + [p]) == AppendMsg(AppendEach(d, ms), p)
  {
    assert (ms + [p])[..|ms|] == ms;
  }

  lemma AppendAddsKey(d: Db, p: Msg)
    ensures AppendMsg(d, p).messages.Keys == d.messages.Keys + {p.id}
  {
  }

  lemma {:induction false} UnknownAreNew(d: Db, ms: seq<Msg>)
    ensures forall p :: p in Unknown(d, ms) <==> p in ms && p.id !in d.messages
  {
    if ms != [] {
      UnknownAreNew(d, ms[..|ms| - 1]);
      assert ms == ms[..|ms| - 1] + [ms[|ms| - 1]];
    }
  }

  lemma {:induction false} FirstsCover(ms: seq<Msg>)
    ensures Ids(Firsts(ms)) == Ids(ms)
    ensures forall p :: p in Firsts(ms) ==> p in ms
  {
    if ms != [] {
      var k := |ms| - 1;
      FirstsCover(ms[..k]);
      assert ms == ms[..k] + [ms[k]];
      FirstsSnoc(ms[..k], ms[k]);
      assert Ids(Firsts(ms[..k]) + [ms[k]]) == Ids(Firsts(ms[..k])) + {ms[k].id};
    }
  }

  ghost predicate DistinctIds(ms: seq<Msg>) {
    forall i, j :: 0 <= i < j < |ms| ==> ms[i].id != ms[j].id
  }

  lemma {:induction false} FirstsDistinct(ms: seq<Msg>)
    ensures DistinctIds(Firsts(ms))
  {
    if ms != [] {
      var k := |ms| - 1;
      FirstsDistinct(ms[..k]);
      FirstsCover(ms[..k]);
      var before := Firsts(ms[..k]);
      if ms[k].id !in Ids(ms[..k]) {
        forall i | 0 <= i < |before|
          ensures before[i].id != ms[k].id
        {
          assert before[i] in before;
          assert before[i].id in Ids(before);
        }
      }
    }
  }

  lemma {:induction false} UnknownDistinct(db: Db, ms: seq<Msg>)
    requires DistinctIds(ms)
    ensures DistinctIds(Unknown(db, ms))
    ensures forall m :: m in Unknown(db, ms) ==> m in ms && m.id !in db.messages
  {
    UnknownAreNew(db, ms);
    if ms != [] {
      var k := |ms| - 1;
      UnknownDistinct(db, ms[..k]);
      var before := Unknown(db, ms[..k]);
      forall i | 0 <= i < |before|
        ensures before[i].id != ms[k].id
      {
        assert before[i] in before;
        var j :| 0 <= j < k && ms[..k][j] == before[i];
        assert ms[j].id != ms[k].id;
      }
    }
  }

  // ---------------------------------------------------------------- one frame more

  lemma {:induction false} HandleAllMore(db: Db, ms: seq<Msg>, n: nat)
    requires n < |ms|
    ensures var r, t := HandleAll(db, ms[..n]), HandleAll(db, ms[..n + 1]);
      t == if r.failed then r
           else var h := Handle(r.db, ms[n]); Ran(h.db, r.pushes + h.pushes, h.status == Fault)
  {
    hide Handle;
    assert ms[..n + 1][..n] == ms[..n];
  }

  lemma {:induction false} RunEarlyMore(db: Db, ms: seq<Msg>, n: nat)
    requires n < |ms|
    ensures var e, t, m := RunEarly(db, ms[..n]), RunEarly(db, ms[..n + 1]), ms[n];
      t == if e.failed || !IsEarly(db, m) then e.(msgs := e.msgs + [Prepare(db, m)])
           else var h := Handle(e.db, m); EarlyRun(h.db, e.msgs + [h.msg], e.pushes + h.pushes, h.status == Fault)
  {
    hide Handle, IsEarly, Prepare;
    assert ms[..n + 1][..n] == ms[..n];
  }

  // ---------------------------------------------------------------- counting

  lemma {:induction false} CountSnoc(ms: seq<Msg>, p: Msg, c: ConvId)
    ensures Count(ms + [p], c) == Count(ms, c) + if p.convId == c then 1 else 0
  {
    assert (ms + [p])[..|ms|] == ms;
  }

  lemma {:induction false} AddRowsPrefix(db: Db, ms: seq<Msg>, p: Msg, k: nat)
    requires k <= |ms|
    ensures AddRows(db, ms + [p], k) == AddRows(db, ms, k)
  {
    if k > 0 {
      AddRowsPrefix(db, ms, p, k - 1);
      assert (ms + [p])[..k - 1] == ms[..k - 1];
    }
  }

  lemma {:induction false} AddRowsSnoc(db: Db, ms: seq<Msg>, p: Msg)
    ensures AddRows(db, ms + [p], |ms| + 1) ==
      AddRows(db, ms, |ms|)[p.id := Row(p.convId, Counter(db, p.convId) + Count(ms, p.convId) + 1,
                                        p.fromUid, p.kind, p.content)]
  {
    AddRowsPrefix(db, ms, p, |ms|);
    assert (ms + [p])[..|ms|] == ms;
  }

  /** The bulk statements move each counter on by the number of its frames. */
  lemma {:induction false} BulkCounter(db: Db, ms: seq<Msg>, d: Db, c: ConvId)
    requires CountersMoved(db, ms, d.counters)
    ensures Counter(d, c) == Counter(db, c) + Count(ms, c)
  {
  }

  lemma CountersStep(db: Db, f: ConvId -> nat, g: ConvId -> nat, c: ConvId, counters: map<ConvId, int>)
    requires forall x :: x in counters <==> x in db.counters || f(x) > 0
    requires forall x :: x in counters ==> counters[x] == Counter(db, x) + f(x)
    requires forall x :: g(x) == f(x) + if x == c then 1 else 0
    ensures var after := counters[c := Counter(db, c) + f(c) + 1];
            && (forall x :: x in after <==> x in db.counters || g(x) > 0)
            && (forall x :: x in after ==> after[x] == Counter(db, x) + g(x))
  {
  }

  lemma RaiseKeepsKeys(convs: map<ConvId, Conversation>, c: ConvId, n: int)
    ensures RaiseLastSeq(convs, c, n).Keys == convs.Keys
  {
  }

  lemma {:induction false} LastSeqAt(db: Db, ms: seq<Msg>, p: Msg, convs: map<ConvId, Conversation>, x: ConvId)
    requires LastSeqsRaised(db, ms, convs) && x in convs
    ensures var after := RaiseLastSeq(convs, p.convId, Counter(db, p.convId) + Count(ms, p.convId) + 1);
            var n := Count(ms + [p], x);
            x in after && after[x] == if n > 0 then Raised(db.convs[x], Counter(db, x) + n) else db.convs[x]
  {
    CountSnoc(ms, p, x);
    hide Count;
  }

  lemma {:induction false} CountersSnoc(db: Db, ms: seq<Msg>, p: Msg, counters: map<ConvId, int>)
    requires CountersMoved(db, ms, counters)
    ensures var c := p.convId;
            CountersMoved(db, ms + [p], counters[c := Counter(db, c) + Count(ms, c) + 1])
  {
    hide Count;
    var f, g := (x: ConvId) => Count(ms, x), (x: ConvId) => Count(ms + [p], x);
    forall x
      ensures g(x) == f(x) + if x == p.convId then 1 else 0
    {
      CountSnoc(ms, p, x);
    }
    CountersStep(db, f, g, p.convId, counters);
  }

  lemma {:induction false} LastSeqsSnoc(db: Db, ms: seq<Msg>, p: Msg, convs: map<ConvId, Conversation>)
    requires LastSeqsRaised(db, ms, convs)
    ensures LastSeqsRaised(db, ms + [p],
              RaiseLastSeq(convs, p.convId, Counter(db, p.convId) + Count(ms, p.convId) + 1))
  {
    hide Count, Raised, RaiseLastSeq;
    var n := Counter(db, p.convId) + Count(ms, p.convId) + 1;
    RaiseKeepsKeys(convs, p.convId, n);
    forall x | x in convs {
      LastSeqAt(db, ms, p, convs, x);
    }
  }

  /** One more frame in the batch is one more append after it. */
  lemma BulkSnoc(db: Db, ms: seq<Msg>, p: Msg, d: Db)
    requires IsBulk(db, ms, d)
    ensures IsBulk(db, ms + [p], AppendMsg(d, p))
  {
    BulkCounter(db, ms, d, p.convId);
    AddRowsSnoc(db, ms, p);
    CountersSnoc(db, ms, p, d.counters);
    LastSeqsSnoc(db, ms, p, d.convs);
    var e, all := AppendMsg(d, p), ms + [p];
    assert e.messages == AddRows(db, all, |all|);
    assert e.counters == d.counters[p.convId := Counter(db, p.convId) + Count(ms, p.convId) + 1];
  }

  lemma {:induction false} AppendEachIsBulk(db: Db, ms: seq<Msg>)
    ensures IsBulk(db, ms, AppendEach(db, ms))
  {
    if ms == [] {
      assert CountersMoved(db, [], db.counters);
    } else {
      var k := |ms| - 1;
      AppendEachIsBulk(db, ms[..k]);
      BulkSnoc(db, ms[..k], ms[k], AppendEach(db, ms[..k]));
      assert ms == ms[..k] + [ms[k]];
    }
  }

  lemma CountersUnique(db: Db, ms: seq<Msg>, a: map<ConvId, int>, b: map<ConvId, int>)
    requires CountersMoved(db, ms, a) && CountersMoved(db, ms, b)
    ensures a == b
  {
  }

  /** One increment per conversation and one multi-row insert leave exactly what appending the frames
      one by one leaves, and nothing else does. */
  lemma {:induction false} BulkIsAppendEach(db: Db, ms: seq<Msg>, d: Db)
    ensures IsBulk(db, ms, d) <==> d == AppendEach(db, ms)
  {
    AppendEachIsBulk(db, ms);
    if IsBulk(db, ms, d) {
      CountersUnique(db, ms, d.counters, AppendEach(db, ms).counters);
      assert d.convs == AppendEach(db, ms).convs;
    }
  }

  lemma {:induction false} AddRowsKeys(db: Db, ms: seq<Msg>, k: nat)
    requires k <= |ms|
    ensures AddRows(db, ms, k).Keys == db.messages.Keys + Ids(ms[..k])
  {
    if k > 0 {
      AddRowsKeys(db, ms, k - 1);
      assert ms[..k] == ms[..k - 1] + [ms[k - 1]];
    }
  }

  /** In a state where numbers are dense no number of the batch can be taken. */
  lemma {:induction false} NumbersAreFree(db: Db, ms: seq<Msg>)
    requires SeqInv(db)
    ensures !SomeNumberTaken(db, ms)
  {
  }

  /** Rows of the batch, in the tables afterwards. */
  lemma {:induction false} RowsOfBatch(db: Db, ms: seq<Msg>, k: nat, j: nat)
    requires j < k <= |ms|
    requires forall i, l :: 0 <= i < l < |ms| ==> ms[i].id != ms[l].id
    ensures ms[j].id in AddRows(db, ms, k) && AddRows(db, ms, k)[ms[j].id] == NewRow(db, ms, j)
  {
    if j < k - 1 {
      RowsOfBatch(db, ms, k - 1, j);
    }
  }

  lemma {:induction false} NotAppended(db: Db, ms: seq<Msg>, p: Msg)
    requires p.id !in db.messages && forall m :: m in ms ==> m.id != p.id
    ensures p.id !in AppendEach(db, ms).messages
  {
    AppendEachIsBulk(db, ms);
    AddRowsKeys(db, ms, |ms|);
    assert ms[..|ms|] == ms;
  }
}
