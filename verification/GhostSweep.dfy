// The reconciler that removes the online records of dead servers, page by page, while the rows it
// walks over disappear under it.
module GhostSweep {
  import opened Strings
  import opened OnlineKv

  const ONLINE := "online:"

  /** The record names a server that is not alive. */
  predicate Dead(r: Record, alive: set<string>) {
    r.parsed.Some? && r.parsed.value !in alive
  }

  /** The rows of dead servers up to a key; those whose delete fails stay. */
  function Doomed(t: Table, alive: set<string>, fails: set<Key>): set<Key> {
    set k | k in t && HasPrefix(k, ONLINE) && Below("", k) && Dead(t[k], alive) && k !in fails
  }

  /** Of these rows, the ones whose stored cs is what was read from it. */
  function Removable(t: Table, ks: set<Key>): set<Key> {
    set k | k in ks && k in t && t[k].field == t[k].parsed
  }

  lemma RemoveOne(t: Table, ks: set<Key>, k: Key)
    requires k in t && k !in ks && t[k].parsed.Some?
    ensures WithoutMatch(t - Removable(t, ks), k, t[k].parsed.value) == t - Removable(t, ks + {k})
  {
    var before := t - Removable(t, ks);
    if t[k].field == t[k].parsed {
      assert Removable(t, ks + {k}) == Removable(t, ks) + {k};
      assert before - {k} == t - Removable(t, ks + {k});
    } else {
      assert Removable(t, ks + {k}) == Removable(t, ks);
    }
  }

  class Reconciler {
    const kv: KvTable
    const pageSize: nat

    constructor (kv: KvTable, pageSize: nat)
      ensures this.kv == kv && this.pageSize == pageSize
    {
      this.kv, this.pageSize := kv, pageSize;
    }

    /** One round. `fails` are the rows whose delete returns an error; their error is logged and they
        are not counted. */
    method Sweep(alive: set<string>, fails: set<Key>) returns (removed: nat)
      requires pageSize > 0
      modifies kv
      ensures kv.rows == old(kv.rows) - Removable(old(kv.rows), Doomed(old(kv.rows), alive, fails))
      ensures removed == |Doomed(old(kv.rows), alive, fails)|
    {
      hide Below, Removable, HasPrefix, IsPage, Doomed, DoneUpto, DonePage, Dead, Ahead;
      ghost var t := kv.rows;
      ghost var done: set<Key> := {};
      removed := 0;
      var after := "";
      NothingDone(t, alive, fails);
      while true
        invariant kv.rows == t - Removable(t, done) && removed == |done|
        invariant done == DoneUpto(t, alive, fails, after)
        decreases |Ahead(t, ONLINE, after)|
      {
        var entries := kv.ScanPrefix(ONLINE, after, pageSize);
        PageIsOfOriginal(t, kv.rows, alive, fails, after, pageSize, entries, done);
        PageBegins(t, alive, fails, after, entries);
        for i := 0 to |entries|
          invariant kv.rows == t - Removable(t, done) && removed == |done|
          invariant done == DonePage(t, alive, fails, after, entries[..i])
        {
          var k := entries[i];
          NotDoneYet(t, alive, fails, after, pageSize, entries, i);
          EntryStands(t, kv.rows, done, k);
          var r := kv.rows[k];
          DeadMeans(r, alive);
          if r.parsed.Some? && r.parsed.value !in alive {
            if k !in fails {
              RemoveOne(t, done, k);
              kv.DeleteIfMatch(k, r.parsed.value);
              done := done + {k};
              removed := removed + 1;
            }
          }
        }
        assert entries[..|entries|] == entries;
        if |entries| < pageSize {
          LastPage(t, alive, fails, after, pageSize, entries, done);
          return;
        }
        PageMoves(t, alive, fails, after, pageSize, entries, done);
        after := entries[|entries| - 1];
      }
    }
  }

  // ---------------------------------------------------------------- the walk over the original rows

  /** What has been dealt with when the cursor stands at `after`. */
  function DoneUpto(t: Table, alive: set<string>, fails: set<Key>, after: Key): set<Key> {
    set k | k in Doomed(t, alive, fails) && !Below(after, k)
  }

  /** The same with some rows of the next page. */
  function DonePage(t: Table, alive: set<string>, fails: set<Key>, after: Key, taken: seq<Key>): set<Key> {
    DoneUpto(t, alive, fails, after) + set k | k in taken && k in Doomed(t, alive, fails)
  }

  lemma DeadMeans(r: Record, alive: set<string>)
    ensures Dead(r, alive) <==> r.parsed.Some? && r.parsed.value !in alive
  {
  }

  lemma PageBegins(t: Table, alive: set<string>, fails: set<Key>, after: Key, page: seq<Key>)
    ensures DonePage(t, alive, fails, after, page[..0]) == DoneUpto(t, alive, fails, after)
  {
  }

  lemma NothingDone(t: Table, alive: set<string>, fails: set<Key>)
    ensures DoneUpto(t, alive, fails, "") == {}
    ensures t - Removable(t, {}) == t
  {
    assert Removable(t, {}) == {};
  }

  /** The rows behind the cursor have not been touched yet, so a page of what is left is a page of
      what was there at first. */
  lemma PageIsOfOriginal(t: Table, rows: Table, alive: set<string>, fails: set<Key>, after: Key, limit: nat,
                         page: seq<Key>, done: set<Key>)
    requires rows == t - Removable(t, done) && done == DoneUpto(t, alive, fails, after)
    requires IsPage(rows, ONLINE, after, limit, page)
    ensures IsPage(t, ONLINE, after, limit, page)
  {
    assert Ahead(rows, ONLINE, after) == Ahead(t, ONLINE, after);
  }

  /** The next row of a page is untouched, and taking it adds it exactly if it is doomed. */
  lemma NotDoneYet(t: Table, alive: set<string>, fails: set<Key>, after: Key, limit: nat, page: seq<Key>, i: nat)
    requires i < |page| && IsPage(t, ONLINE, after, limit, page)
    ensures var done, k := DonePage(t, alive, fails, after, page[..i]), page[i];
      && k !in done && k in t
      && DonePage(t, alive, fails, after, page[..i + 1]) ==
           done + if Dead(t[k], alive) && k !in fails then {k} else {}
  {
    LessAsymmetric(page[i], page[i]);
    assert page[i] in Ahead(t, ONLINE, after);
    assert Below("", page[i]);
    assert page[..i + 1] == page[..i] + [page[i]];
  }

  lemma EntryStands(t: Table, rows: Table, done: set<Key>, k: Key)
    requires rows == t - Removable(t, done) && k !in done && k in t
    ensures k in rows && rows[k] == t[k]
  {
  }

  lemma LastPage(t: Table, alive: set<string>, fails: set<Key>, after: Key, limit: nat, page: seq<Key>, done: set<Key>)
    requires IsPage(t, ONLINE, after, limit, page) && |page| < limit
    requires done == DonePage(t, alive, fails, after, page)
    ensures done == Doomed(t, alive, fails)
  {
    forall k | k in Doomed(t, alive, fails)
      ensures k in done
    {
      if Below(after, k) {
        assert k in Ahead(t, ONLINE, after);
      }
    }
  }

  /** A full page moves the cursor forward over original rows: the loop ends. */
  lemma PageMoves(t: Table, alive: set<string>, fails: set<Key>, after: Key, limit: nat, page: seq<Key>, done: set<Key>)
    requires IsPage(t, ONLINE, after, limit, page) && |page| == limit > 0
    requires done == DonePage(t, alive, fails, after, page)
    ensures var last := page[|page| - 1];
      && done == DoneUpto(t, alive, fails, last)
      && |Ahead(t, ONLINE, last)| < |Ahead(t, ONLINE, after)|
  {
    var last := page[|page| - 1];
    assert last in page;
    LessAsymmetric(last, last);
    forall k | Below(last, k)
      ensures Below(after, k) && k !in page
    {
      LessTransitive(after, last, k);
      if k in page {
        var i :| 0 <= i < |page| && page[i] == k;
        LessAsymmetric(last, k);
      }
    }
    assert Ahead(t, ONLINE, last) <= Ahead(t, ONLINE, after) - {last};
    SmallerSet(Ahead(t, ONLINE, last), Ahead(t, ONLINE, after), last);
    forall k | k in Doomed(t, alive, fails)
      ensures k in done <==> !Below(last, k)
    {
      if Below(after, k) {
        assert k in Ahead(t, ONLINE, after);
        if k in page {
          assert !Below(last, k);
        }
      } else {
        assert !Below(last, k);
      }
    }
  }

  lemma {:induction false} SmallerSet(a: set<Key>, b: set<Key>, x: Key)
    requires a <= b - {x} && x in b
    ensures |a| < |b|
  {
    var rest := b - {x} - a;
    assert a + rest == b - {x};
    assert |b - {x}| == |a| + |rest|;
    assert |b| == |b - {x}| + 1;
  }

  // ---------------------------------------------------------------- what a round means

  /** Online records that read the same on both sides, as Upsert writes them. The other rows of the table
      need not: a counter has no cs in SQL and an empty one for the decoder. */
  predicate Regular(t: Table) {
    forall k :: k in t && HasPrefix(k, ONLINE) ==> t[k].field == t[k].parsed
  }

  lemma OnlineKeysAreAhead(k: Key)
    requires HasPrefix(k, ONLINE)
    ensures Below("", k)
  {
  }

  /** Over regular records and with working deletes a round is exact: it removes the online records of
      dead servers, keeps every other row, and returns how many it has removed. */
  lemma SweepIsExact(t: Table, alive: set<string>)
    requires Regular(t)
    ensures var after := t - Removable(t, Doomed(t, alive, {}));
      && (forall k :: k in after <==> k in t && !(HasPrefix(k, ONLINE) && Dead(t[k], alive)))
      && (forall k :: k in after ==> after[k] == t[k])
      && |t| - |after| == |Doomed(t, alive, {})|
  {
    var ks := Doomed(t, alive, {});
    assert Removable(t, ks) == ks;
    forall k | HasPrefix(k, ONLINE) {
      OnlineKeysAreAhead(k);
    }
    RemovedKeys(t, ks);
  }

  lemma {:induction false} RemovedKeys(t: Table, ks: set<Key>)
    requires ks <= t.Keys
    ensures |t - ks| == |t| - |ks|
  {
    assert (t - ks).Keys == t.Keys - ks;
    assert t.Keys - ks + ks == t.Keys;
    assert |t - ks| == |(t - ks).Keys| && |t| == |t.Keys|;
  }

  /** The count is right exactly when every dead record reads the same on both sides; a record whose
      cs only the decoder sees is counted and stays. */
  lemma CountIsExact(t: Table, alive: set<string>, fails: set<Key>)
    ensures |t| - |t - Removable(t, Doomed(t, alive, fails))| == |Doomed(t, alive, fails)| <==>
      forall k :: k in Doomed(t, alive, fails) ==> t[k].field == t[k].parsed
  {
    var ks := Doomed(t, alive, fails);
    RemovedKeys(t, Removable(t, ks));
    if forall k :: k in ks ==> t[k].field == t[k].parsed {
      assert Removable(t, ks) == ks;
    } else {
      var k :| k in ks && t[k].field != t[k].parsed;
      SmallerSet(Removable(t, ks), ks, k);
    }
  }
}
