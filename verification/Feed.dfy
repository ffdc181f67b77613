// Reading a page of the feed: the cursor, and the merge of inbox and pulled posts.
module Feed {
  import opened Wrappers
  import opened Strings
  import opened Codecs

  // ---------------------------------------------------------------- the cursor

  datatype Cursor = NoCursor | At(nanos: int, postId: string) | Bad

  function EncodeCursor(nanos: int, postId: string): string
    requires IsInt64(nanos) && IsBytes(postId)
  {
    ParseOfFormat(nanos);
    Encode(FormatInt(nanos) + ":" + postId)
  }

  function DecodeCursor(s: string): Cursor {
    if s == "" then NoCursor
    else
      match Decode(s)
      case None => Bad
      case Some(raw) =>
        IndexOfMeans(raw, ':');
        var i := IndexOf(raw, ':');
        if i < 0 then Bad
        else
          match ParseInt(raw[..i])
          case None => Bad
          case Some(nanos) => At(nanos, raw[i + 1..])
  }

  /** A cursor gives back its time and its post id, whatever the id contains. */
  lemma CursorRoundTrip(nanos: int, postId: string)
    requires IsInt64(nanos) && IsBytes(postId)
    ensures DecodeCursor(EncodeCursor(nanos, postId)) == At(nanos, postId)
  {
    ParseOfFormat(nanos);
    var number := FormatInt(nanos);
    hide FormatInt, ParseInt;
    var raw := number + ":" + postId;
    DecodeOfEncode(raw);
    EncodeIsPart(raw);
    SplitAt(number, postId, ':');
    hide Encode, Decode, IndexOf;
  }

  // ---------------------------------------------------------------- the order of entries

  datatype Entry = Entry(postId: string, createdAt: int)

  /** Newer first, the larger id first among equals. */
  predicate Before(a: Entry, b: Entry) {
    a.createdAt > b.createdAt || (a.createdAt == b.createdAt && Less(b.postId, a.postId))
  }

  lemma BeforeIsOrder(a: Entry, b: Entry, c: Entry)
    ensures Before(a, b) || a == b || Before(b, a)
    ensures !(Before(a, b) && Before(b, a)) && !Before(a, a)
    ensures Before(a, b) && Before(b, c) ==> Before(a, c)
  {
    LessTotal(a.postId, b.postId);
    LessAsymmetric(a.postId, b.postId);
    if Less(b.postId, a.postId) && Less(c.postId, b.postId) {
      LessTransitive(c.postId, b.postId, a.postId);
    }
  }

  /** No later entry ranks above an earlier one: what sort.Slice leaves. */
  predicate Ordered(es: seq<Entry>) {
    forall i, j :: 0 <= i < j < |es| ==> !Before(es[j], es[i])
  }

  // ---------------------------------------------------------------- sorting in place

  lemma PrefixOfMultiset(a: seq<Entry>, b: seq<Entry>)
    requires multiset(a) == multiset(b)
    ensures forall e :: e in a <==> e in b
  {
    forall e
      ensures e in a <==> e in b
    {
      assert e in a <==> e in multiset(a);
      assert e in b <==> e in multiset(b);
    }
  }

  lemma SwapKeepsMultiset(es: seq<Entry>, i: nat)
    requires 0 < i < |es|
    ensures multiset(es[i - 1 := es[i]][i := es[i - 1]]) == multiset(es)
  {
  }

  /** Sorted up to `n` but for the element at `j`, which may still have to move forward. */
  predicate OrderedBut(es: seq<Entry>, n: nat, j: nat)
    requires j < n <= |es|
  {
    && (forall i, k :: 0 <= i < k < n && i != j && k != j ==> !Before(es[k], es[i]))
    && (forall k :: j < k < n ==> !Before(es[k], es[j]))
  }

  lemma SwapStep(es: seq<Entry>, n: nat, j: nat)
    requires 0 < j < n <= |es| && OrderedBut(es, n, j) && Before(es[j], es[j - 1])
    ensures OrderedBut(es[j - 1 := es[j]][j := es[j - 1]], n, j - 1)
  {
    var after := es[j - 1 := es[j]][j := es[j - 1]];
    forall k | j - 1 < k < n
      ensures !Before(after[k], after[j - 1])
    {
      BeforeIsOrder(es[j], es[j - 1], es[j]);
    }
    hide Before;
  }

  lemma NowOrdered(es: seq<Entry>, n: nat, j: nat)
    requires j < n <= |es| && OrderedBut(es, n, j) && (j > 0 ==> !Before(es[j], es[j - 1]))
    ensures Ordered(es[..n])
  {
    forall i, k | 0 <= i < k < n
      ensures !Before(es[k], es[i])
    {
      if k == j && i < j - 1 {
        BeforeIsOrder(es[j - 1], es[i], es[j]);
        BeforeIsOrder(es[j], es[i], es[j - 1]);
        BeforeIsOrder(es[j], es[j - 1], es[i]);
        BeforeIsOrder(es[i], es[j - 1], es[j]);
        BeforeIsOrder(es[i], es[j], es[j - 1]);
        BeforeIsOrder(es[j - 1], es[j], es[i]);
      }
    }
  }

  /** The entries in order, in place. */
  method SortEntries(a: array<Entry>)
    modifies a
    ensures Ordered(a[..]) && multiset(a[..]) == multiset(old(a[..]))
  {
    hide Ordered;
    NoneOrdered(a[..]);
    for n := 0 to a.Length
      invariant Ordered(a[..n]) && multiset(a[..]) == multiset(old(a[..]))
    {
      Settle(a, n);
    }
    assert a[..a.Length] == a[..];
  }

  /** Move one entry forward to where it belongs. */
  method Settle(a: array<Entry>, n: nat)
    requires n < a.Length && Ordered(a[..n])
    modifies a
    ensures Ordered(a[..n + 1]) && multiset(a[..]) == multiset(old(a[..]))
  {
    assert a[..][..n] == a[..n];
    OneMore(a[..], n);
    hide Before, Ordered, OrderedBut;
    var j := n;
    while j > 0 && Before(a[j], a[j - 1])
      invariant j <= n && OrderedBut(a[..], n + 1, j) && multiset(a[..]) == multiset(old(a[..]))
    {
      SwapStep(a[..], n + 1, j);
      SwapKeepsMultiset(a[..], j);
      ghost var es := a[..];
      a[j - 1], a[j] := a[j], a[j - 1];
      assert a[..] == es[j - 1 := es[j]][j := es[j - 1]];
      j := j - 1;
    }
    NowOrdered(a[..], n + 1, j);
    assert a[..][..n + 1] == a[..n + 1];
  }

  lemma NoneOrdered(es: seq<Entry>)
    ensures Ordered(es[..0])
  {
  }

  lemma OneMore(es: seq<Entry>, n: nat)
    requires n < |es| && Ordered(es[..n])
    ensures OrderedBut(es, n + 1, n)
  {
    forall i, k | 0 <= i < k < n
      ensures !Before(es[k], es[i])
    {
      assert es[..n][k] == es[k] && es[..n][i] == es[i];
    }
  }

  // ---------------------------------------------------------------- merging

  function PostIds(es: seq<Entry>): set<string> {
    set e | e in es :: e.postId
  }

  /** The first entry of every post, in order, up to the limit. */
  function Merged(es: seq<Entry>, limit: nat): seq<Entry> {
    if es == [] then []
    else
      var k := |es| - 1;
      var before := Merged(es[..k], limit);
      if |before| >= limit || es[k].postId in PostIds(es[..k]) then before else before + [es[k]]
  }

  method MergeEntries(es: seq<Entry>, limit: nat) returns (merged: seq<Entry>)
    requires limit > 0
    ensures merged == Merged(es, limit)
  {
    hide PostIds;
    var seen: set<string> := {};
    merged := [];
    NothingSeen();
    for i := 0 to |es|
      invariant seen == PostIds(es[..i]) && merged == Merged(es[..i], limit) && |merged| < limit
    {
      assert es[..i + 1][..i] == es[..i];
      OnePostMore(es, i);
      if es[i].postId in seen {
        continue;
      }
      seen := seen + {es[i].postId};
      merged := merged + [es[i]];
      if |merged| >= limit {
        FullStays(es, i + 1, limit);
        return;
      }
    }
    assert es[..|es|] == es;
  }

  lemma NothingSeen()
    ensures PostIds([]) == {}
  {
  }

  lemma OnePostMore(es: seq<Entry>, i: nat)
    requires i < |es|
    ensures PostIds(es[..i + 1]) == PostIds(es[..i]) + {es[i].postId}
  {
    assert es[..i + 1] == es[..i] + [es[i]];
  }

  lemma {:induction false} FullStays(es: seq<Entry>, i: nat, limit: nat)
    requires i <= |es| && |Merged(es[..i], limit)| >= limit
    ensures Merged(es, limit) == Merged(es[..i], limit)
    decreases |es| - i
  {
    if i < |es| {
      assert es[..i + 1][..i] == es[..i];
      FullStays(es, i + 1, limit);
    } else {
      assert es[..i] == es;
    }
  }

  /** What a page of merged entries is: candidates, one per post, each the best of its post, in
      descending order; and what is missing of the candidates was beaten by the limit. */
  ghost predicate IsMerge(es: seq<Entry>, limit: nat, merged: seq<Entry>) {
    && |merged| <= limit
    && (forall i, j :: 0 <= i < j < |merged| ==> merged[i].postId != merged[j].postId)
    && (forall i, j :: 0 <= i < j < |merged| ==> Before(merged[i], merged[j]))
    && (forall m :: m in merged ==> m in es && forall e :: e in es && e.postId == m.postId ==> !Before(e, m))
    && (|merged| < limit ==> PostIds(merged) == PostIds(es))
    && (forall e, m :: e in es && e.postId !in PostIds(merged) && m in merged ==> Before(m, e))
  }

  lemma {:induction false} MergedPosts(es: seq<Entry>, limit: nat)
    ensures var merged := Merged(es, limit);
      && |merged| <= limit
      && (forall m :: m in merged ==> m in es)
      && (forall i, j :: 0 <= i < j < |merged| ==> merged[i].postId != merged[j].postId)
      && (|merged| < limit ==> PostIds(merged) == PostIds(es))
  {
    if es == [] {
      NothingSeen();
    } else {
      var k := |es| - 1;
      MergedPosts(es[..k], limit);
      OnePostMore(es, k);
      assert es[..k + 1] == es;
      var before := Merged(es[..k], limit);
      if |before| < limit && es[k].postId !in PostIds(es[..k]) {
        assert (before + [es[k]])[..|before|] == before;
        OnePostMore(before + [es[k]], |before|);
        assert (before + [es[k]])[..|before| + 1] == before + [es[k]];
        forall i | 0 <= i < |before|
          ensures before[i].postId != es[k].postId
        {
          assert before[i] in es[..k];
        }
      }
    }
  }

  /** Where a merged entry comes from: the first of its post in the sorted list, and everything merged
      before it comes from further left. */
  lemma {:induction false} MergedIsFirst(es: seq<Entry>, limit: nat, i: nat)
    requires i < |Merged(es, limit)|
    ensures exists n ::
      (0 <= n < |es| && es[n] == Merged(es, limit)[i] && es[n].postId !in PostIds(es[..n])
       && Merged(es[..n], limit) == Merged(es, limit)[..i])
  {
    var k := |es| - 1;
    var before, all := Merged(es[..k], limit), Merged(es, limit);
    if i < |before| {
      MergedIsFirst(es[..k], limit, i);
      var n :| 0 <= n < k && es[..k][n] == before[i] && es[..k][n].postId !in PostIds(es[..k][..n])
        && Merged(es[..k][..n], limit) == before[..i];
      assert es[..k][..n] == es[..n] && all[..i] == before[..i];
      assert es[n] == all[i];
    } else {
      assert all == before + [es[k]] && all[..i] == before;
      assert es[k] == all[i];
    }
  }

  /** Over a sorted list of candidates the loop yields such a page. */
  lemma {:induction false} MergedIsMerge(es: seq<Entry>, limit: nat)
    requires Ordered(es)
    ensures IsMerge(es, limit, Merged(es, limit))
  {
    var merged := Merged(es, limit);
    MergedPosts(es, limit);
    hide Merged, Before;
    forall i, j | 0 <= i < j < |merged|
      ensures Before(merged[i], merged[j])
    {
      MergedAscends(es, limit, i, j);
    }
    forall m | m in merged
      ensures forall e :: e in es && e.postId == m.postId ==> !Before(e, m)
    {
      MergedIsBest(es, limit, m);
    }
    forall e, m | e in es && e.postId !in PostIds(merged) && m in merged
      ensures Before(m, e)
    {
      MissingIsBelow(es, limit, e, m);
    }
  }

  lemma {:induction false} MergedAscends(es: seq<Entry>, limit: nat, i: nat, j: nat)
    requires Ordered(es) && i < j < |Merged(es, limit)|
    ensures Before(Merged(es, limit)[i], Merged(es, limit)[j])
  {
    var merged := Merged(es, limit);
    MergedIsFirst(es, limit, j);
    var n :| 0 <= n < |es| && es[n] == merged[j] && es[n].postId !in PostIds(es[..n])
      && Merged(es[..n], limit) == merged[..j];
    MergedPosts(es[..n], limit);
    assert merged[..j][i] in es[..n];
    var k :| 0 <= k < n && es[..n][k] == merged[i];
    assert es[k] == merged[i] && es[k].postId in PostIds(es[..n]);
    BeforeIsOrder(es[k], es[n], es[k]);
    hide Before, Merged;
    assert !Before(es[n], es[k]);
  }

  lemma {:induction false} MergedIsBest(es: seq<Entry>, limit: nat, m: Entry)
    requires Ordered(es) && m in Merged(es, limit)
    ensures forall e :: e in es && e.postId == m.postId ==> !Before(e, m)
  {
    var merged := Merged(es, limit);
    var i :| 0 <= i < |merged| && merged[i] == m;
    MergedIsFirst(es, limit, i);
    var n :| 0 <= n < |es| && es[n] == merged[i] && es[n].postId !in PostIds(es[..n])
      && Merged(es[..n], limit) == merged[..i];
    hide Before, Merged;
    forall e | e in es && e.postId == m.postId
      ensures !Before(e, m)
    {
      var k :| 0 <= k < |es| && es[k] == e;
      NotEarlier(es, n, k);
      if k == n {
        SameIsNotBefore(e);
      }
    }
  }

  lemma InPrefix(es: seq<Entry>, n: nat, k: nat)
    requires k < n <= |es|
    ensures es[k].postId in PostIds(es[..n])
  {
    assert es[..n][k] == es[k];
  }

  lemma NotEarlier(es: seq<Entry>, n: nat, k: nat)
    requires n < |es| && k < |es| && es[k].postId == es[n].postId && es[n].postId !in PostIds(es[..n])
    ensures n <= k
  {
    hide PostIds;
    if k < n {
      InPrefix(es, n, k);
    }
  }

  lemma SameIsNotBefore(e: Entry)
    ensures !Before(e, e)
  {
    BeforeIsOrder(e, e, e);
  }

  /** A candidate whose post is not on the page ranks below everything on it. */
  lemma {:induction false} MissingIsBelow(es: seq<Entry>, limit: nat, e: Entry, m: Entry)
    requires Ordered(es) && e in es && e.postId !in PostIds(Merged(es, limit)) && m in Merged(es, limit)
    ensures Before(m, e)
  {
    var merged := Merged(es, limit);
    var i :| 0 <= i < |merged| && merged[i] == m;
    MergedIsFirst(es, limit, i);
    var n :| 0 <= n < |es| && es[n] == merged[i] && es[n].postId !in PostIds(es[..n])
      && Merged(es[..n], limit) == merged[..i];
    var k :| 0 <= k < |es| && es[k] == e;
    MergedPosts(es[..n], limit);
    MergedPosts(es, limit);
    BeforeIsOrder(m, e, m);
    assert m.postId in PostIds(merged);
    if k < n {
      assert es[..n][k] == e;
      assert e.postId in PostIds(es[..n]) && PostIds(es[..n]) == PostIds(merged[..i]);
      PrefixPosts(merged, i);
    } else {
      assert k != n;
      assert !Before(es[k], es[n]);
    }
  }

  lemma PrefixPosts(es: seq<Entry>, i: nat)
    requires i <= |es|
    ensures PostIds(es[..i]) <= PostIds(es)
  {
  }

  /** Spelt out: the page runs from newer to older, from larger to smaller id among posts of the same
      moment, and everything left out comes after it. */
  lemma PageIsNewestFirst(es: seq<Entry>, limit: nat, merged: seq<Entry>, i: nat, j: nat, e: Entry)
    requires IsMerge(es, limit, merged)
    ensures i < j < |merged| ==>
      merged[i].createdAt > merged[j].createdAt
      || (merged[i].createdAt == merged[j].createdAt && exists k: nat :: Differ(merged[j].postId, merged[i].postId, k))
    ensures i < |merged| && e in es && e.postId !in PostIds(merged) ==>
      |merged| == limit
      && (merged[i].createdAt > e.createdAt
          || (merged[i].createdAt == e.createdAt && exists k: nat :: Differ(e.postId, merged[i].postId, k)))
  {
    hide Less, Differ;
    if i < j < |merged| {
      assert Before(merged[i], merged[j]);
      LessMeans(merged[j].postId, merged[i].postId);
    }
    if i < |merged| && e in es && e.postId !in PostIds(merged) {
      assert merged[i] in merged && Before(merged[i], e);
      LessMeans(e.postId, merged[i].postId);
    }
  }

  // ---------------------------------------------------------------- the page is determined

  lemma BestIsUnique(es: seq<Entry>, a: Entry, b: Entry)
    requires a in es && b in es && a.postId == b.postId
    requires forall e :: e in es && e.postId == a.postId ==> !Before(e, a) && !Before(e, b)
    ensures a == b
  {
    BeforeIsOrder(a, b, a);
  }

  lemma SamePlace(es: seq<Entry>, limit: nat, a: seq<Entry>, b: seq<Entry>, i: nat)
    requires IsMerge(es, limit, a) && IsMerge(es, limit, b) && i < |a| && i < |b| && a[..i] == b[..i]
    ensures !Before(a[i], b[i])
  {
    BeforeIsOrder(a[i], b[i], a[i]);
    var m := a[i];
    if m.postId in PostIds(b) {
      var x :| x in b && x.postId == m.postId;
      BestIsUnique(es, m, x);
      var j :| 0 <= j < |b| && b[j] == x;
      if j < i {
        NotTwice(a, b, i, j);
      }
    }
  }

  lemma NotTwice(a: seq<Entry>, b: seq<Entry>, i: nat, j: nat)
    requires j < i < |a| && i <= |b| && a[..i] == b[..i]
    ensures a[j] == b[j]
  {
    assert a[..i][j] == b[..i][j];
  }

  lemma {:induction false} SamePrefix(es: seq<Entry>, limit: nat, a: seq<Entry>, b: seq<Entry>, n: nat)
    requires IsMerge(es, limit, a) && IsMerge(es, limit, b) && n <= |a| && n <= |b|
    ensures a[..n] == b[..n]
  {
    if n > 0 {
      SamePrefix(es, limit, a, b, n - 1);
      SamePlace(es, limit, a, b, n - 1);
      SamePlace(es, limit, b, a, n - 1);
      BeforeIsOrder(a[n - 1], b[n - 1], a[n - 1]);
      assert a[..n] == a[..n - 1] + [a[n - 1]] && b[..n] == b[..n - 1] + [b[n - 1]];
    }
  }

  lemma NotLonger(es: seq<Entry>, limit: nat, a: seq<Entry>, b: seq<Entry>)
    requires IsMerge(es, limit, a) && IsMerge(es, limit, b)
    ensures |b| <= |a|
  {
    hide IsMerge;
    if |a| < |b| {
      SamePrefix(es, limit, a, b, |a|);
      assert a[..|a|] == a;
      TailIsNew(es, limit, a, b);
      ShortHasAll(es, limit, a, b, |a|);
    }
  }

  lemma TailIsNew(es: seq<Entry>, limit: nat, a: seq<Entry>, b: seq<Entry>)
    requires IsMerge(es, limit, b) && |a| < |b| && a == b[..|a|]
    ensures b[|a|].postId !in PostIds(a)
  {
    forall y | y in a
      ensures y.postId != b[|a|].postId
    {
      var j :| 0 <= j < |a| && a[j] == y;
      assert b[j] == y;
    }
  }

  lemma ShortHasAll(es: seq<Entry>, limit: nat, a: seq<Entry>, b: seq<Entry>, i: nat)
    requires IsMerge(es, limit, a) && IsMerge(es, limit, b) && |a| < |b| && i < |b|
    ensures b[i].postId in PostIds(a)
  {
    assert b[i] in b;
  }

  /** The candidates alone determine the page: it does not matter in which order the two lists are
      read, nor how the sort treats equal entries. */
  lemma MergeIsUnique(es: seq<Entry>, limit: nat, a: seq<Entry>, b: seq<Entry>)
    requires IsMerge(es, limit, a) && IsMerge(es, limit, b)
    ensures a == b
  {
    NotLonger(es, limit, a, b);
    NotLonger(es, limit, b, a);
    SamePrefix(es, limit, a, b, |a|);
    assert a[..|a|] == a && b[..|b|] == b;
  }

  lemma MergeOfSame(es: seq<Entry>, others: seq<Entry>, limit: nat, merged: seq<Entry>)
    requires IsMerge(es, limit, merged) && forall e :: e in es <==> e in others
    ensures IsMerge(others, limit, merged)
  {
    assert PostIds(es) == PostIds(others);
  }

  // ---------------------------------------------------------------- the whole page

  datatype Post = Post(createdAt: int, deleted: bool)

  /** The pulled posts that the cursor lets through. */
  function Through(pulled: seq<Entry>, before: int, last: string): seq<Entry> {
    if pulled == [] then []
    else
      var k := |pulled| - 1;
      Through(pulled[..k], before, last)
      + if pulled[k].createdAt < before || (pulled[k].createdAt == before && pulled[k].postId != last)
        then [pulled[k]] else []
  }

  /** The posts that still exist, with their own times. */
  function Surviving(merged: seq<Entry>, posts: map<string, Post>): seq<Entry> {
    if merged == [] then []
    else
      var m := merged[|merged| - 1];
      Surviving(merged[..|merged| - 1], posts)
      + if m.postId in posts && !posts[m.postId].deleted then [Entry(m.postId, posts[m.postId].createdAt)] else []
  }

  lemma {:induction false} ThroughMeans(pulled: seq<Entry>, before: int, last: string, e: Entry)
    ensures e in Through(pulled, before, last) <==>
      e in pulled && (e.createdAt < before || (e.createdAt == before && e.postId != last))
  {
    if pulled != [] {
      ThroughMeans(pulled[..|pulled| - 1], before, last, e);
      assert pulled == pulled[..|pulled| - 1] + [pulled[|pulled| - 1]];
    }
  }

  /** What a page is chosen from: the inbox, and the pulled posts older than the bound, or as old but not
      the one the last page ended with. */
  ghost predicate Candidates(es: seq<Entry>, inbox: seq<Entry>, pulled: seq<Entry>, before: int,
                             cursor: Option<string>) {
    forall e :: e in es <==>
      e in inbox || (e in pulled && (e.createdAt < before || (e.createdAt == before && Some(e.postId) != cursor)))
  }

  lemma {:induction false} ThroughAreCandidates(inbox: seq<Entry>, pulled: seq<Entry>, before: int,
                                                cursor: Option<string>, last: string)
    requires if cursor.Some? then last == cursor.value else !SomeAtBound(pulled, before)
    ensures Candidates(inbox + Through(pulled, before, last), inbox, pulled, before, cursor)
  {
    forall e {
      ThroughMeans(pulled, before, last, e);
    }
    hide Through;
  }

  lemma PageOfCandidates(entries: seq<Entry>, inbox: seq<Entry>, pulled: seq<Entry>, before: int,
                         cursor: Option<string>,
                         limit: nat, merged: seq<Entry>, es: seq<Entry>)
    requires IsMerge(entries, limit, merged)
    requires Candidates(entries, inbox, pulled, before, cursor) && Candidates(es, inbox, pulled, before, cursor)
    ensures IsMerge(es, limit, merged)
  {
    MergeOfSame(entries, es, limit, merged);
  }

  predicate SomeAtBound(pulled: seq<Entry>, before: int) {
    exists i :: 0 <= i < |pulled| && pulled[i].createdAt == before
  }

  /** Merge a page. None is a nil dereference: without a cursor, a pulled post dated exactly at the
      bound. */
  method GetFeed(inbox: seq<Entry>, pulled: seq<Entry>, before: int, cursor: Option<string>, limit: nat,
                 posts: map<string, Post>)
    returns (page: Option<seq<Entry>>, merged: seq<Entry>)
    requires limit > 0
    ensures page == None <==> cursor == None && SomeAtBound(pulled, before)
    ensures page.Some? ==>
      && page.value == Surviving(merged, posts)
      && forall es | Candidates(es, inbox, pulled, before, cursor) :: IsMerge(es, limit, merged)
  {
    merged := [];
    var entries := inbox;
    ghost var last := if cursor.Some? then cursor.value else "";
    assert inbox + Through(pulled[..0], before, last) == inbox;
    for i := 0 to |pulled|
      invariant entries == inbox + Through(pulled[..i], before, last)
      invariant cursor == None ==> forall k :: 0 <= k < i ==> pulled[k].createdAt != before
    {
      assert pulled[..i + 1][..i] == pulled[..i];
      var p := pulled[i];
      if p.createdAt < before {
        entries := entries + [p];
      } else if p.createdAt == before {
        if cursor == None {
          return None, merged;
        }
        if p.postId != cursor.value {
          entries := entries + [p];
        }
      }
    }
    assert pulled[..|pulled|] == pulled;
    merged := SortAndMerge(entries, limit);
    ThroughAreCandidates(inbox, pulled, before, cursor, last);
    forall es | Candidates(es, inbox, pulled, before, cursor) {
      PageOfCandidates(entries, inbox, pulled, before, cursor, limit, merged, es);
    }
    var items := Hydrate(merged, posts);
    page := Some(items);
  }

  method SortAndMerge(entries: seq<Entry>, limit: nat) returns (merged: seq<Entry>)
    requires limit > 0
    ensures IsMerge(entries, limit, merged)
  {
    hide IsMerge, Ordered;
    var a := new Entry[|entries|](i requires 0 <= i < |entries| => entries[i]);
    assert a[..] == entries;
    SortEntries(a);
    PrefixOfMultiset(a[..], entries);
    merged := MergeEntries(a[..], limit);
    MergedIsMerge(a[..], limit);
    MergeOfSame(a[..], entries, limit, merged);
  }

  method Hydrate(merged: seq<Entry>, posts: map<string, Post>) returns (items: seq<Entry>)
    ensures items == Surviving(merged, posts)
  {
    items := [];
    for i := 0 to |merged|
      invariant items == Surviving(merged[..i], posts)
    {
      assert merged[..i + 1][..i] == merged[..i];
      var m := merged[i];
      if m.postId in posts && !posts[m.postId].deleted {
        items := items + [Entry(m.postId, posts[m.postId].createdAt)];
      }
    }
    assert merged[..|merged|] == merged;
  }

  lemma {:induction false} SurvivingPosts(merged: seq<Entry>, posts: map<string, Post>)
    ensures forall id :: id in PostIds(Surviving(merged, posts)) <==>
      id in PostIds(merged) && id in posts && !posts[id].deleted
  {
    if merged == [] {
      NothingSeen();
    } else {
      var k := |merged| - 1;
      SurvivingPosts(merged[..k], posts);
      OnePostMore(merged, k);
      assert merged[..k + 1] == merged;
      var before, m := Surviving(merged[..k], posts), merged[k];
      if m.postId in posts && !posts[m.postId].deleted {
        var all := before + [Entry(m.postId, posts[m.postId].createdAt)];
        OnePostMore(all, |before|);
        assert all[..|before| + 1] == all && all[..|before|] == before;
      }
      hide PostIds;
    }
  }

  /** No post is on the page twice, and it has exactly the merged posts that still exist. */
  lemma {:induction false} SurvivingAreDistinct(merged: seq<Entry>, posts: map<string, Post>)
    requires forall i, j :: 0 <= i < j < |merged| ==> merged[i].postId != merged[j].postId
    ensures var items := Surviving(merged, posts);
      && (forall i, j :: 0 <= i < j < |items| ==> items[i].postId != items[j].postId)
      && (forall id :: id in PostIds(items) <==> id in PostIds(merged) && id in posts && !posts[id].deleted)
  {
    SurvivingPosts(merged, posts);
    hide PostIds;
    if merged != [] {
      var k := |merged| - 1;
      SurvivingAreDistinct(merged[..k], posts);
      var before := Surviving(merged[..k], posts);
      forall i | 0 <= i < |before|
        ensures before[i].postId != merged[k].postId
      {
        ComesFromPrefix(merged, posts, i);
      }
    }
  }

  lemma ComesFromPrefix(merged: seq<Entry>, posts: map<string, Post>, i: nat)
    requires merged != [] && i < |Surviving(merged[..|merged| - 1], posts)|
    ensures exists j :: 0 <= j < |merged| - 1 && merged[j].postId == Surviving(merged[..|merged| - 1], posts)[i].postId
  {
    var k := |merged| - 1;
    var before := Surviving(merged[..k], posts);
    SurvivingPosts(merged[..k], posts);
    assert before[i] in before && before[i].postId in PostIds(before);
    var x :| x in merged[..k] && x.postId == before[i].postId;
    var j :| 0 <= j < k && merged[..k][j] == x;
    assert merged[j].postId == before[i].postId;
  }

  /** Where a post stands on the page: behind as many as there are merged posts before it that still
      exist, and with its own time. */
  lemma {:induction false} SurvivingKeepsOrder(merged: seq<Entry>, posts: map<string, Post>, i: nat)
    requires i < |merged| && merged[i].postId in posts && !posts[merged[i].postId].deleted
    ensures var k := |Surviving(merged[..i], posts)|;
      && k < |Surviving(merged, posts)|
      && Surviving(merged, posts)[k] == Entry(merged[i].postId, posts[merged[i].postId].createdAt)
    ensures Surviving(merged[..i], posts) <= Surviving(merged, posts)
  {
    var n := |merged| - 1;
    if i < n {
      SurvivingKeepsOrder(merged[..n], posts, i);
      assert merged[..n][..i] == merged[..i];
    }
  }
}
