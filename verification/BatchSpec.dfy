// The batched path of the persist worker for single-chat frames, as a function of the tables.
module BatchSpec {
  import opened Wrappers
  import opened Chat
  import opened Tables
  import opened PersistSpec

  // ---------------------------------------------------------------- conversation resolution

  /** A frame without a conversation id gets the one on record for its pair of users, if any. */
  function ResolveOne(db: Db, m: Msg): Msg {
    var key := SingleKey(m.fromUid, m.toUid);
    if m.convId == "" && key in db.singles then m.(convId := db.singles[key]) else m
  }

  /** The first frames of conversations that do not exist yet; they take the slow path at once. */
  predicate IsEarly(db: Db, m: Msg) {
    m.convId == "" && SingleKey(m.fromUid, m.toUid) !in db.singles
  }

  function Prepare(db: Db, m: Msg): Msg {
    AssignId(ResolveOne(db, m))
  }

  datatype EarlyRun = EarlyRun(db: Db, msgs: seq<Msg>, pushes: seq<Push>, failed: bool)

  /** Handle the early frames one by one; the others only get their ids. */
  function RunEarly(db: Db, ms: seq<Msg>): (r: EarlyRun)
    ensures |r.msgs| == |ms|
  {
    if ms == [] then EarlyRun(db, [], [], false)
    else
      var k := |ms| - 1;
      var before := RunEarly(db, ms[..k]);
      var m := ms[k];
      if before.failed || !IsEarly(db, m) then before.(msgs := before.msgs + [Prepare(db, m)])
      else
        var h := Handle(before.db, m);
        EarlyRun(h.db, before.msgs + [h.msg], before.pushes + h.pushes, h.status == Fault)
  }

  /** The frames left for the batch, with their ids. */
  function Rest(db: Db, ms: seq<Msg>): seq<Msg> {
    if ms == [] then []
    else
      var k := |ms| - 1;
      Rest(db, ms[..k]) + if IsEarly(db, ms[k]) then [] else [Prepare(db, ms[k])]
  }

  // ---------------------------------------------------------------- in-batch dedup and replays

  function Ids(ms: seq<Msg>): set<Id> {
    set m | m in ms :: m.id
  }

  /** The first frame of every id. */
  function Firsts(ms: seq<Msg>): seq<Msg> {
    if ms == [] then []
    else
      var k := |ms| - 1;
      Firsts(ms[..k]) + if ms[k].id in Ids(ms[..k]) then [] else [ms[k]]
  }

  function Known(db: Db, ms: seq<Msg>): seq<Msg> {
    if ms == [] then []
    else
      var k := |ms| - 1;
      Known(db, ms[..k]) + if ms[k].id in db.messages then [ms[k]] else []
  }

  function Unknown(db: Db, ms: seq<Msg>): seq<Msg> {
    if ms == [] then []
    else
      var k := |ms| - 1;
      Unknown(db, ms[..k]) + if ms[k].id in db.messages then [] else [ms[k]]
  }

  // ---------------------------------------------------------------- the bulk transaction

  /** How many of the frames belong to a conversation. */
  function Count(ms: seq<Msg>, c: ConvId): nat {
    if ms == [] then 0
    else
      var k := |ms| - 1;
      Count(ms[..k], c) + if ms[k].convId == c then 1 else 0
  }

  /** The number the k-th frame gets: the counter before the batch plus its rank in its own
      conversation. */
  function NumberOf(db: Db, ms: seq<Msg>, k: nat): int
    requires k < |ms|
  {
    Counter(db, ms[k].convId) + Count(ms[..k], ms[k].convId) + 1
  }

  function NewRow(db: Db, ms: seq<Msg>, k: nat): Row
    requires k < |ms|
  {
    Row(ms[k].convId, NumberOf(db, ms, k), ms[k].fromUid, ms[k].kind, ms[k].content)
  }

  function AddRows(db: Db, ms: seq<Msg>, k: nat): map<Id, Row>
    requires k <= |ms|
  {
    if k == 0 then db.messages else AddRows(db, ms, k - 1)[ms[k - 1].id := NewRow(db, ms, k - 1)]
  }

  function Raised(row: Conversation, n: int): Conversation {
    if row.lastSeq < n then row.(lastSeq := n) else row
  }

  /** What one increment per conversation, one insert of all rows and one update of last_seq leave
      behind. */
  ghost predicate IsBulk(db: Db, ms: seq<Msg>, d: Db) {
    && d == db.(messages := AddRows(db, ms, |ms|), counters := d.counters, convs := d.convs)
    && CountersMoved(db, ms, d.counters)
    && LastSeqsRaised(db, ms, d.convs)
  }

  ghost predicate CountersMoved(db: Db, ms: seq<Msg>, counters: map<ConvId, int>) {
    && (forall c :: c in counters <==> c in db.counters || Count(ms, c) > 0)
    && (forall c :: c in counters ==> counters[c] == Counter(db, c) + Count(ms, c))
  }

  ghost predicate LastSeqsRaised(db: Db, ms: seq<Msg>, convs: map<ConvId, Conversation>) {
    && convs.Keys == db.convs.Keys
    && (forall c :: c in convs ==>
          convs[c] == if Count(ms, c) > 0 then Raised(db.convs[c], Counter(db, c) + Count(ms, c))
                      else db.convs[c])
  }

  function AppendMsg(db: Db, p: Msg): Db {
    Append(db, p.id, p.convId, p.fromUid, p.kind, p.content)
  }

  /** The same as single appends, one frame after the other. */
  function AppendEach(db: Db, ms: seq<Msg>): Db {
    if ms == [] then db else AppendMsg(AppendEach(db, ms[..|ms| - 1]), ms[|ms| - 1])
  }

  predicate UsersExist(db: Db, ms: seq<Msg>) {
    forall m :: m in ms ==> m.fromUid in db.users && m.toUid in db.users
  }

  predicate ConvsExist(db: Db, ms: seq<Msg>) {
    forall m :: m in ms ==> m.convId in db.convs
  }

  predicate SomeNumberTaken(db: Db, ms: seq<Msg>) {
    exists k :: 0 <= k < |ms| && Numbered(db, ms[k].convId, NumberOf(db, ms, k))
  }

  // ---------------------------------------------------------------- pushes

  function FreshPushes(db: Db, ms: seq<Msg>, k: nat): seq<Push>
    requires k <= |ms|
  {
    if k == 0 then []
    else FreshPushes(db, ms, k - 1)
         + [PushFor(ms[k - 1], NumberOf(db, ms, k - 1), ms[k - 1].toUid, false)]
  }

  function ReplayPush(db: Db, m: Msg): Push
    requires m.id in db.messages
  {
    var row := db.messages[m.id];
    PushFor(m.(content := row.content), row.seqNo, m.toUid, false)
  }

  function ReplayPushes(db: Db, ms: seq<Msg>): seq<Push>
    requires forall m :: m in ms ==> m.id in db.messages
  {
    if ms == [] then []
    else
      var k := |ms| - 1;
      ReplayPushes(db, ms[..k]) + [ReplayPush(db, ms[k])]
  }

  // ---------------------------------------------------------------- the whole batch

  /** Done: everything stored and pushed. Fallback: a precondition failed before anything of the
      batch proper was written; the caller takes the slow path with the frames as they are now.
      Failed: an error, the frames are delivered again. */
  datatype BatchStatus = Done | Fallback | Failed

  datatype BatchOut = BatchOut(db: Db, msgs: seq<Msg>, pushes: seq<Push>, status: BatchStatus)

  lemma {:induction false} KnownAreStored(db: Db, ms: seq<Msg>)
    ensures forall m :: m in Known(db, ms) ==> m in ms && m.id in db.messages
  {
    if ms != [] {
      KnownAreStored(db, ms[..|ms| - 1]);
    }
  }

  datatype Finished = Finished(db: Db, pushes: seq<Push>, status: BatchStatus)

  /** The batch proper, on the first frame of every id. */
  function FinishBatch(db: Db, kept: seq<Msg>): Finished {
    var replays, news := Known(db, kept), Unknown(db, kept);
    KnownAreStored(db, kept);
    if news == [] then Finished(db, ReplayPushes(db, replays), Done)
    else if !UsersExist(db, news) || !ConvsExist(db, news) then Finished(db, [], Fallback)
    else if SomeNumberTaken(db, news) then Finished(db, [], Failed)
    else Finished(
      AppendEach(db, news),
      FreshPushes(db, news, |news|) + ReplayPushes(db, replays),
      Done)
  }

  function HandleBatch(db: Db, ms: seq<Msg>): BatchOut {
    var e := RunEarly(db, ms);
    if e.failed then BatchOut(e.db, e.msgs, e.pushes, Failed)
    else
      var f := FinishBatch(e.db, Firsts(Rest(db, ms)));
      BatchOut(f.db, e.msgs, e.pushes + f.pushes, f.status)
  }

  // ---------------------------------------------------------------- one turn of the consumer loop

  /** The well-formed single-chat frames; None is a payload that does not parse. */
  function Singles(frames: seq<Option<Msg>>): seq<Msg> {
    if frames == [] then []
    else
      var k := |frames| - 1;
      Singles(frames[..k])
      + if frames[k].Some? && Normalise(frames[k].value).kind == Single then [Normalise(frames[k].value)] else []
  }

  function Others(frames: seq<Option<Msg>>): seq<Msg> {
    if frames == [] then []
    else
      var k := |frames| - 1;
      Others(frames[..k])
      + if frames[k].Some? && Normalise(frames[k].value).kind != Single then [Normalise(frames[k].value)] else []
  }

  /** The single-chat frames by the batched path or, failing that, by the slow one; then the rest one
      by one. `failed` means that the offsets are not committed. */
  function Consume(db: Db, frames: seq<Option<Msg>>): Ran {
    var b := HandleBatch(db, Singles(frames));
    var slow := if b.status == Fallback then HandleAll(b.db, b.msgs) else Ran(b.db, [], b.status == Failed);
    if slow.failed then Ran(slow.db, b.pushes + slow.pushes, true)
    else
      var rest := HandleAll(slow.db, Others(frames));
      Ran(rest.db, b.pushes + slow.pushes + rest.pushes, rest.failed)
  }
}
