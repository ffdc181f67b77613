// The Postgres tables of the chat pipeline as one value, and the transactions that several
// components share.
module Tables {
  import opened Wrappers
  import opened Chat
  import opened Strings

  /** A row of `messages`, under its primary key. */
  datatype Row = Row(convId: ConvId, seqNo: int, fromUid: Uid, kind: Kind, content: Content)

  /** A row of `conversations`, under its primary key. */
  datatype Conversation = Conversation(isGroup: bool, members: seq<Uid>, lastSeq: int)

  datatype GroupStatus = Active | Dismissed
  datatype Role = Owner | Ordinary

  /** A row of `groups`. */
  datatype GroupRow = GroupRow(
    name: string,
    announcement: string,
    owner: Uid,
    pinned: Option<Id>,
    status: GroupStatus,
    memberCount: int)

  /** A row of `group_members`; `left` says that left_at is set. */
  datatype Member = Member(uid: Uid, role: Role, left: bool)

  /** `singles` is the unique index on conversations.single_key. `counters` and `online` are the
      seq: and online: records of the `kv` table, each under the id behind the prefix. `roster` holds the rows of
      group_members per group in the order of joined_at. */
  datatype Db = Db(
    users: set<Uid>,
    messages: map<Id, Row>,
    convs: map<ConvId, Conversation>,
    singles: map<string, ConvId>,
    convMembers: set<(ConvId, Uid)>,
    counters: map<ConvId, int>,
    online: map<Uid, OnlineValue>,
    groups: map<ConvId, GroupRow>,
    roster: map<ConvId, seq<Member>>)

  // ---------------------------------------------------------------- keys

  function SeqKey(c: ConvId): string {
    "seq:" + c
  }

  function OnlineKey(u: Uid): string {
    "online:" + u
  }

  /** SQL `substring(k from 5)`. */
  function DropFour(k: string): string {
    if |k| < 4 then "" else k[4..]
  }

  /** The key written by the batch gives the conversation id back, and no counter key is the key of
      another conversation or of an online record. So the two kinds of records may be kept apart,
      each under the bare id. */
  lemma KvKeysApart(c: ConvId, e: ConvId, u: Uid, v: Uid)
    ensures DropFour(SeqKey(c)) == c
    ensures SeqKey(c) == SeqKey(e) <==> c == e
    ensures OnlineKey(u) == OnlineKey(v) <==> u == v
    ensures SeqKey(c) != OnlineKey(u)
    ensures SeqKey(c)[..4] == "seq:" && OnlineKey(u)[..7] == "online:"
  {
    assert SeqKey(c)[4..] == c && SeqKey(e)[4..] == e;
    assert OnlineKey(u)[7..] == u && OnlineKey(v)[7..] == v;
    assert SeqKey(c)[0] == 's' && OnlineKey(u)[0] == 'o';
  }

  /** Without the prefix the conversation id would come back cut: the reason the batch has to write
      the key with it. */
  lemma BareKeyLosesId(c: ConvId)
    ensures DropFour(c) == c <==> c == ""
  {
  }

  /** The normalised key of a pair of users. */
  function SingleKey(a: Uid, b: Uid): string {
    if Less(b, a) then b + ":" + a else a + ":" + b
  }

  lemma SingleKeySymmetric(a: Uid, b: Uid)
    ensures SingleKey(a, b) == SingleKey(b, a)
  {
    LessTotal(a, b);
    LessAsymmetric(a, b);
  }

  /** Without ':' in user ids the key determines the unordered pair. */
  lemma SingleKeyInjective(a: Uid, b: Uid, x: Uid, y: Uid)
    requires ':' !in a && ':' !in b && ':' !in x && ':' !in y
    ensures SingleKey(a, b) == SingleKey(x, y) <==> {a, b} == {x, y}
  {
    SingleKeySymmetric(a, b);
    if SingleKey(a, b) == SingleKey(x, y) {
      var (l, h) := if Less(b, a) then (b, a) else (a, b);
      var (m, n) := if Less(y, x) then (y, x) else (x, y);
      JoinInjective(l, h, m, n, ':');
    }
    if {a, b} == {x, y} {
      assert a in {x, y} && b in {x, y} && x in {a, b} && y in {a, b};
    }
  }

  /** With ':' in user ids two different pairs can share a key. */
  lemma SingleKeyCollides()
    ensures SingleKey("a", "b:c") == SingleKey("a:b", "c")
    ensures {"a", "b:c"} != {"a:b", "c"}
  {
    assert "a" !in {"a:b", "c"};
    assert "a" + ":" + "b:c" == "a:b" + ":" + "c";
  }

  // ---------------------------------------------------------------- sequence numbers

  /** The number last handed out for a conversation, 0 before the first. */
  function Counter(db: Db, c: ConvId): int {
    if c in db.counters then db.counters[c] else 0
  }

  /** UNIQUE(conv_id, seq): is the number taken by a stored message? */
  predicate Numbered(db: Db, c: ConvId, n: int) {
    exists id :: id in db.messages && db.messages[id].convId == c && db.messages[id].seqNo == n
  }

  function RaiseLastSeq(convs: map<ConvId, Conversation>, c: ConvId, n: int): map<ConvId, Conversation> {
    if c in convs && convs[c].lastSeq < n then convs[c := convs[c].(lastSeq := n)] else convs
  }

  /** Take the next number of the conversation, insert the message under it and raise last_seq: the
      common part of the persist transaction and of every group transaction. */
  function Append(db: Db, id: Id, c: ConvId, from: Uid, kind: Kind, content: Content): Db {
    var n := Counter(db, c) + 1;
    db.(messages := db.messages[id := Row(c, n, from, kind, content)],
        counters := db.counters[c := n],
        convs := RaiseLastSeq(db.convs, c, n))
  }

  /** Every conversation's stored numbers are exactly 1..counter, each once, and last_seq is the
      counter. */
  ghost predicate SeqInv(db: Db) {
    && (forall c :: c in db.counters ==> db.counters[c] >= 1)
    && (forall id :: id in db.messages ==>
          1 <= db.messages[id].seqNo <= Counter(db, db.messages[id].convId))
    && (forall i, j | i in db.messages && j in db.messages && i != j ::
          db.messages[i].convId == db.messages[j].convId ==> db.messages[i].seqNo != db.messages[j].seqNo)
    && (forall c, n :: 1 <= n <= Counter(db, c) ==> Numbered(db, c, n))
    && (forall c :: c in db.convs ==> db.convs[c].lastSeq == Counter(db, c))
  }

  lemma NextNumberIsFree(db: Db, c: ConvId)
    requires SeqInv(db)
    ensures !Numbered(db, c, Counter(db, c) + 1)
  {
  }

  lemma AppendCounter(db: Db, id: Id, c: ConvId, from: Uid, kind: Kind, content: Content, x: ConvId)
    ensures Counter(Append(db, id, c, from, kind, content), x) == Counter(db, x) + if x == c then 1 else 0
  {
  }

  lemma AppendNumbers(db: Db, id: Id, c: ConvId, from: Uid, kind: Kind, content: Content, x: ConvId, n: int)
    requires id !in db.messages
    ensures Numbered(Append(db, id, c, from, kind, content), x, n) <==>
      Numbered(db, x, n) || (x == c && n == Counter(db, c) + 1)
  {
    var d := Append(db, id, c, from, kind, content);
    if Numbered(db, x, n) {
      var i :| i in db.messages && db.messages[i].convId == x && db.messages[i].seqNo == n;
      assert d.messages[i] == db.messages[i];
    }
    if x == c && n == Counter(db, c) + 1 {
      assert d.messages[id].convId == x && d.messages[id].seqNo == n;
    }
  }

  lemma AppendKeepsSeqInv(db: Db, id: Id, c: ConvId, from: Uid, kind: Kind, content: Content)
    requires SeqInv(db) && id !in db.messages
    ensures SeqInv(Append(db, id, c, from, kind, content))
  {
    var d := Append(db, id, c, from, kind, content);
    forall x, n | 1 <= n <= Counter(d, x)
      ensures Numbered(d, x, n)
    {
      AppendNumbers(db, id, c, from, kind, content, x, n);
    }
    hide Numbered;
    AppendCounter(db, id, c, from, kind, content, c);
  }

  /** The invariant looks at the rows, the counters and the last_seq values only. */
  lemma SameNumbers(db: Db, d: Db)
    requires SeqInv(db) && d.messages == db.messages && d.counters == db.counters
    requires forall c :: c in d.convs ==> d.convs[c].lastSeq == Counter(db, c)
    ensures SeqInv(d)
  {
    forall c, n | 1 <= n <= Counter(d, c)
      ensures Numbered(d, c, n)
    {
      assert Numbered(db, c, n);
    }
  }

  function RowsUpTo(db: Db, c: ConvId, n: int): set<Id> {
    set id | id in db.messages && db.messages[id].convId == c && db.messages[id].seqNo <= n
  }

  lemma OneRowMore(db: Db, c: ConvId, n: nat)
    requires SeqInv(db) && 0 < n <= Counter(db, c)
    ensures exists id :: id !in RowsUpTo(db, c, n - 1) && RowsUpTo(db, c, n) == RowsUpTo(db, c, n - 1) + {id}
  {
    assert Numbered(db, c, n);
    var id :| id in db.messages && db.messages[id].convId == c && db.messages[id].seqNo == n;
    hide Numbered;
    assert RowsUpTo(db, c, n) == RowsUpTo(db, c, n - 1) + {id};
  }

  lemma AllRows(db: Db, c: ConvId)
    requires SeqInv(db)
    ensures RowsUpTo(db, c, 0) == {}
    ensures RowsUpTo(db, c, Counter(db, c)) == set id | id in db.messages && db.messages[id].convId == c
  {
    hide Numbered;
  }

  /** The counter of a conversation is the number of its rows: it never advances without a new row. */
  lemma {:induction false} CounterCountsRows(db: Db, c: ConvId, n: nat)
    requires SeqInv(db) && n <= Counter(db, c)
    ensures |RowsUpTo(db, c, n)| == n
    ensures RowsUpTo(db, c, Counter(db, c)) == set id | id in db.messages && db.messages[id].convId == c
  {
    AllRows(db, c);
    hide *;
    if n > 0 {
      CounterCountsRows(db, c, n - 1);
      OneRowMore(db, c, n);
    }
  }

  // ---------------------------------------------------------------- single conversations

  datatype Ensured = Found(convId: ConvId) | Opened(db: Db, convId: ConvId) | SamePerson | Clash

  /** Find or create the conversation of two users. `drawn` is the random id drawn for a new one;
      Clash is a primary-key violation by it. */
  function EnsureSingle(db: Db, a: Uid, b: Uid, drawn: ConvId): Ensured {
    var key := SingleKey(a, b);
    if a == b then SamePerson
    else if key in db.singles then Found(db.singles[key])
    else if drawn in db.convs || (drawn, a) in db.convMembers || (drawn, b) in db.convMembers then Clash
    else Opened(
      db.(convs := db.convs[drawn := Conversation(false, [a, b], 0)],
          singles := db.singles[key := drawn],
          convMembers := db.convMembers + {(drawn, a), (drawn, b)}),
      drawn)
  }

  predicate CleanUid(u: Uid) { ':' !in u && '|' !in u }

  /** Every single conversation in the index exists, is named without '|', is not a group, belongs
      to two different users and has them as members. */
  ghost predicate SingleInv(db: Db) {
    && (forall u :: u in db.users ==> CleanUid(u))
    && (forall k :: k in db.singles ==>
          var c := db.singles[k];
          c != "" && '|' !in c && c in db.convs && !db.convs[c].isGroup && c !in db.groups)
    && (forall a, b :: CleanUid(a) && CleanUid(b) && SingleKey(a, b) in db.singles ==>
          var c := db.singles[SingleKey(a, b)];
          a != b && (c, a) in db.convMembers && (c, b) in db.convMembers)
  }
}
