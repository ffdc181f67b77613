// The online: records of the kv table and the statements on them.
module OnlineKv {
  import opened Wrappers
  import opened Strings

  type Key = string

  /** A value as its readers see it: `parsed` is the cs that the sweep decodes, None when the text does
      not decode; `field` is v->>'cs' in SQL, None for NULL; `route` is the address that a decoder of
      the whole value gets, None when that fails. */
  datatype Record = Record(parsed: Option<string>, field: Option<string>, route: Option<string>)

  type Table = map<Key, Record>

  /** What Upsert writes reads the same on both sides. */
  function Written(cs: string, addr: string): Record {
    Record(Some(cs), Some(cs), Some(addr))
  }

  /** DELETE ... WHERE k = key AND v->>'cs' = self */
  function WithoutMatch(t: Table, key: Key, self: string): Table {
    if key in t && t[key].field == Some(self) then t - {key} else t
  }

  // ---------------------------------------------------------------- pages

  predicate Below(a: Key, b: Key) {
    Less(a, b)
  }

  predicate HasPrefix(k: Key, prefix: string) {
    prefix <= k
  }

  /** The rows a scan is about. */
  function Ahead(t: Table, prefix: string, after: Key): set<Key> {
    set k | k in t && HasPrefix(k, prefix) && Below(after, k)
  }

  predicate Ascending(page: seq<Key>) {
    forall i, j :: 0 <= i < j < |page| ==> Below(page[i], page[j])
  }

  /** A page holds the `limit` least rows behind the cursor, in order, or all of them. */
  ghost predicate IsPage(t: Table, prefix: string, after: Key, limit: nat, page: seq<Key>) {
    && Ascending(page)
    && (forall k :: k in page ==> k in Ahead(t, prefix, after))
    && |page| <= limit
    && (|page| < limit ==> forall k :: k in Ahead(t, prefix, after) ==> k in page)
    && (page != [] ==> forall k :: k in Ahead(t, prefix, after) && k !in page ==> Below(page[|page| - 1], k))
  }

  predicate IsLeast(k: Key, s: set<Key>) {
    k in s && forall x :: x in s ==> k == x || Below(k, x)
  }

  lemma LeastWith(s: set<Key>, y: Key, k: Key)
    requires y in s && IsLeast(k, s - {y})
    ensures IsLeast(y, s) || IsLeast(k, s)
  {
    hide Less;
    LessTotal(k, y);
    if Below(y, k) {
      forall x | x in s && x != y && x != k
        ensures Below(y, x)
      {
        assert x in s - {y} && Below(k, x);
        LessTransitive(y, k, x);
      }
    }
  }

  lemma {:induction false} LeastExists(s: set<Key>)
    requires s != {}
    ensures exists k :: IsLeast(k, s)
    decreases |s|
  {
    hide Below;
    var y :| y in s;
    if s == {y} {
      assert IsLeast(y, s);
    } else {
      assert s != {y} ==> s - {y} != {};
      LeastExists(s - {y});
      var k :| IsLeast(k, s - {y});
      LeastWith(s, y, k);
    }
  }

  class KvTable {
    var rows: Table

    constructor (rows: Table)
      ensures this.rows == rows
    {
      this.rows := rows;
    }

    /** INSERT ... ON CONFLICT (k) DO UPDATE */
    method Put(key: Key, r: Record)
      modifies this
      ensures rows == old(rows)[key := r]
    {
      rows := rows[key := r];
    }

    method DeleteIfMatch(key: Key, self: string)
      modifies this
      ensures rows == WithoutMatch(old(rows), key, self)
    {
      if key in rows && rows[key].field == Some(self) {
        rows := rows - {key};
      }
    }

    /** SELECT ... WHERE k LIKE prefix || '%' AND k > after ORDER BY k LIMIT limit; a limit of zero
        means a thousand. */
    method ScanPrefix(prefix: string, after: Key, limit: nat) returns (page: seq<Key>)
      ensures IsPage(rows, prefix, after, if limit == 0 then 1000 else limit, page)
    {
      hide Below;
      var max := if limit == 0 then 1000 else limit;
      var left := set k | k in rows && HasPrefix(k, prefix) && Below(after, k);
      page := [];
      while left != {} && |page| < max
        invariant left <= Ahead(rows, prefix, after) && Ascending(page) && |page| <= max
        invariant forall k :: k in page ==> k in Ahead(rows, prefix, after) && k !in left
        invariant forall k :: k in Ahead(rows, prefix, after) && k !in left ==> k in page
        invariant forall k, x :: k in page && x in left ==> Below(k, x)
        decreases |left|
      {
        LeastExists(left);
        var k :| k in left && IsLeast(k, left);
        page := page + [k];
        left := left - {k};
      }
    }

    /** SELECT k, v ... WHERE k = ANY(keys) */
    method GetManyBatch(keys: seq<Key>) returns (found: Table)
      ensures found == map k | k in rows && k in keys :: rows[k]
    {
      found := map[];
      for i := 0 to |keys|
        invariant found == map k | k in rows && k in keys[..i] :: rows[k]
      {
        if keys[i] in rows {
          found := found[keys[i] := rows[keys[i]]];
        }
        assert keys[..i + 1] == keys[..i] + [keys[i]];
      }
      assert keys[..|keys|] == keys;
    }
  }
}
