// What handling one frame keeps, whatever its kind.
module PersistInvariants {
  import opened Chat
  import opened Tables
  import opened PersistSpec

  /** A conversation id that nothing in the tables mentions: what a random UUID is taken to be. */
  ghost predicate Unused(db: Db, c: ConvId) {
    && c != "" && '|' !in c
    && c !in db.convs && c !in db.groups && c !in db.counters
    && (forall u :: (c, u) !in db.convMembers)
  }

  /** The id drawn for a new conversation, if the frame needs one, is new. */
  ghost predicate DrawsUnused(db: Db, m: Msg) {
    m.convId == "" ==> Unused(db, m.newConv)
  }

  ghost predicate Inv(db: Db) {
    SeqInv(db) && SingleInv(db)
  }

  /** Conversation ids are drawn, and drawn without '|'. */
  ghost predicate CleanConvs(db: Db) {
    forall c :: c in db.convs ==> '|' !in c
  }

  /** The only way a frame can fail without an outage: a user writes to himself and names no
      conversation. The error of EnsureSingle is not poison, so the frame comes back for ever. */
  predicate Stuck(db: Db, m: Msg) {
    Normalise(m).kind == Single && m.convId == "" && m.fromUid == m.toUid && m.fromUid in db.users
  }

  predicate NoneStuck(db: Db, ms: seq<Msg>) {
    forall m :: m in ms ==> !Stuck(db, m)
  }

  // ---------------------------------------------------------------- opening a conversation

  function WithNew(db: Db, a: Uid, b: Uid, c: ConvId): Db {
    db.(convs := db.convs[c := Conversation(false, [a, b], 0)],
        singles := db.singles[SingleKey(a, b) := c],
        convMembers := db.convMembers + {(c, a), (c, b)})
  }

  lemma OpenKeepsSeqInv(db: Db, a: Uid, b: Uid, c: ConvId)
    requires SeqInv(db) && Unused(db, c)
    ensures SeqInv(WithNew(db, a, b, c))
  {
    SameNumbers(db, WithNew(db, a, b, c));
  }

  lemma OpenKeepsSingleInv(db: Db, a: Uid, b: Uid, c: ConvId)
    requires SingleInv(db) && Unused(db, c) && CleanUid(a) && CleanUid(b) && a != b
    requires SingleKey(a, b) !in db.singles
    ensures SingleInv(WithNew(db, a, b, c))
  {
    hide SingleKey;
    var d := WithNew(db, a, b, c);
    forall x, y | CleanUid(x) && CleanUid(y) && SingleKey(x, y) in d.singles
      ensures x != y && (d.singles[SingleKey(x, y)], x) in d.convMembers && (d.singles[SingleKey(x, y)], y) in d.convMembers
    {
      SingleKeyInjective(x, y, a, b);
      assert a in {a, b} && b in {a, b};
    }
  }

  lemma OpenKeepsInv(db: Db, a: Uid, b: Uid, c: ConvId)
    requires Inv(db) && Unused(db, c) && CleanUid(a) && CleanUid(b)
    ensures a == b <==> EnsureSingle(db, a, b, c).SamePerson?
    ensures !EnsureSingle(db, a, b, c).Clash?
    ensures EnsureSingle(db, a, b, c).Opened? ==> Inv(EnsureSingle(db, a, b, c).db)
  {
    hide SeqInv, SingleInv;
    if EnsureSingle(db, a, b, c).Opened? {
      OpenKeepsSeqInv(db, a, b, c);
      OpenKeepsSingleInv(db, a, b, c);
    }
  }

  /** EnsureSingle is idempotent and does not depend on who asks. */
  lemma EnsureSingleTwice(db: Db, a: Uid, b: Uid, drawn: ConvId, redrawn: ConvId)
    requires EnsureSingle(db, a, b, drawn).Opened?
    ensures var e := EnsureSingle(db, a, b, drawn);
            EnsureSingle(e.db, a, b, redrawn) == Found(drawn) == EnsureSingle(e.db, b, a, redrawn)
  {
    SingleKeySymmetric(a, b);
  }

  // ---------------------------------------------------------------- storing

  lemma StoreKeepsInv(db: Db, m: Msg, targets: seq<Uid>)
    requires Inv(db)
    ensures Inv(StoreAndPush(db, m, targets).db) && StoreAndPush(db, m, targets).status == Accepted
  {
    hide SeqInv, Pushes;
    var m1 := AssignId(m);
    NextNumberIsFree(db, m1.convId);
    if m1.id !in db.messages {
      AppendKeepsSeqInv(db, m1.id, m1.convId, m1.fromUid, m1.kind, m1.content);
    }
  }

  /** One frame of any kind keeps the invariants, and fails exactly when it is stuck. */
  lemma HandleKeepsInv(db: Db, m: Msg)
    requires Inv(db) && DrawsUnused(db, m)
    ensures Inv(Handle(db, m).db)
    ensures Handle(db, m).status == Fault <==> Stuck(db, m)
  {
    var m0 := Normalise(m);
    match m0.kind
    case SystemEvent =>
      StoreKeepsInv(db, m0, ActiveUids(Roster(db, m0.convId)));
    case Group =>
      StoreKeepsInv(db, m0, ActiveUids(Roster(db, m0.convId)));
    case Single =>
      if m.convId == "" && m.fromUid in db.users && m.toUid in db.users {
        OpenKeepsInv(db, m.fromUid, m.toUid, m.newConv);
      }
      match ValidateSingle(db, m0) {
        case Pass(d, m1) => StoreKeepsInv(d, m1, []);
        case _ =>
      }
    case _ =>
  }

  // ---------------------------------------------------------------- what handling leaves alone

  /** Nothing is lost: rows, conversations, index entries and members stay, and the tables a frame
      has no business with do not change. */
  ghost predicate Grows(db: Db, d: Db) {
    && d.users == db.users && d.online == db.online && d.groups == db.groups && d.roster == db.roster
    && (forall id :: id in db.messages ==> id in d.messages && d.messages[id] == db.messages[id])
    && (forall c :: c in db.convs ==> c in d.convs)
    && (forall k :: k in db.singles ==> k in d.singles && d.singles[k] == db.singles[k])
    && db.convMembers <= d.convMembers
  }

  lemma StoreGrows(db: Db, m: Msg, targets: seq<Uid>)
    ensures Grows(db, StoreAndPush(db, m, targets).db)
  {
    var m1 := AssignId(m);
    if m1.id !in db.messages {
      assert Grows(db, Append(db, m1.id, m1.convId, m1.fromUid, m1.kind, m1.content));
    }
  }

  lemma StoreNeverPoison(db: Db)
    ensures forall x: Msg, targets :: StoreAndPush(db, x, targets).status != Poison
  {
  }

  lemma GrowsReflexive(d: Db)
    ensures Grows(d, d)
  {
  }

  lemma ValidateGrows(db: Db, m: Msg)
    ensures ValidateSingle(db, m).Pass? ==> Grows(db, ValidateSingle(db, m).db)
  {
  }

  lemma HandleGrows(db: Db, m: Msg)
    ensures Grows(db, Handle(db, m).db)
    ensures Handle(db, m).status == Poison ==> Handle(db, m).db == db && Handle(db, m).pushes == []
  {
    StoreNeverPoison(db);
    hide StoreAndPush, Grows;
    GrowsReflexive(db);
    var m0 := Normalise(m);
    match m0.kind
    case SystemEvent =>
      StoreGrows(db, m0, ActiveUids(Roster(db, m0.convId)));
    case Group =>
      StoreGrows(db, m0, ActiveUids(Roster(db, m0.convId)));
    case Single =>
      ValidateGrows(db, m0);
      match ValidateSingle(db, m0) {
        case Pass(d, m1) =>
          StoreGrows(d, m1, []);
          StoreNeverPoison(d);
          GrowsTransitive(db, d, StoreAndPush(d, m1, []).db);
        case _ =>
      }
    case _ =>
  }

  lemma GrowsTransitive(a: Db, b: Db, c: Db)
    requires Grows(a, b) && Grows(b, c)
    ensures Grows(a, c)
  {
  }

  // ---------------------------------------------------------------- rows and pushes agree

  /** A push that carries the id, the conversation, the number, the sender and the content of a stored
      row. */
  predicate PushOfRow(db: Db, p: Push) {
    && p.id in db.messages
    && var row := db.messages[p.id];
       row.convId == p.convId && row.seqNo == p.seqNo && row.fromUid == p.fromUid && row.content == p.content
  }

  /** Message ids belong to one conversation and one sender. */
  predicate IdFits(db: Db, m: Msg) {
    m.id in db.messages ==> db.messages[m.id].convId == m.convId && db.messages[m.id].fromUid == m.fromUid
  }
}
